# Verified model of the exchange core

This project models six parts of the exchange in Dafny and proves what they promise over all inputs and all runs.
`dafny verify dfyconfig.toml` checks everything.

| module | file | what it models |
|---|---|---|
| Common | Common.dfy | options, minimum, decimal numbers |
| Seqs | Seqs.dfy | sequence vocabulary: repeat-free lists, filters, sums, ascending order |
| DependencyGraph, KahnSort | DependencyGraph.dfy, KahnSort.dfy | dependency chains and the invariants of the topological sort |
| DagManager, DagRuns | FactorDag.dfy, DagRuns.dfy | the factor DAG object and its runs |
| Factors, Executor, FactorLaws | Factors.dfy, Executor.dfy, FactorLaws.dfy | factor evaluation, level-parallel and incremental execution, and what it leaves in the store |
| HashRing, ShardRouting | HashRing.dfy, ShardRouter.dfy | the consistent-hash ring and the caching router |
| TickFlush | TickFlush.dfy | the tick buffer and its flush workers as interleaved steps |
| FillDispatch | FillDispatch.dfy | dispatch of matching events through the engine-id index |
| ConditionalOrders | ConditionalOrders.dfy | the conditional-order engine |
| PriorityQueue | PriorityQueue.dfy | the three-lane order queue |
| Settlement | Settlement.dfy | mark-to-market, daily totals, history and force plans |
| Checkpoints, StateCaching | Checkpoints.dfy, StateCache.dfy | the checkpoint store and the state cache |

Objects that the program updates in place are classes; each method is proved against a function or relation on the
old and new state, and the theorems over runs are lemmas about those functions and relations. Iteration over hash
maps and sets is in arbitrary order throughout. Factor values and operators, the hash function, the outcome of storage,
gateway and router calls, clock readings and generated ids are inputs.

## Where the code departs from its evident intent

Each of these is kept as the code has it; the lemmas named say exactly when the intended property holds, and give a
run or an input where it does not.

- A sort never rewrites the depth of a node without dependencies (src/factor/dag.rs:347-352). `DagRuns.SortStrictIff`
  says when levels are strict, `DagRuns.RemoveZeroRootsIff` which removals endanger that, `Executor.ParallelSoundIff`
  and `Executor.ExecuteSoundIff` that executions are right exactly then; `DagRuns.StaleDepthScenario` and
  `Executor.StaleExecution` are the run that breaks it and what it then computes.
- Hash collisions overwrite another node's virtual node for good, and re-adding an id keeps its old virtual nodes
  (src/cluster/consistent_hash.rs:101-117): `HashRing.AddThenRemoveIff`, `HashRing.ReAddExactIff`.
- A second flush worker may reorder the log (src/exchange/order_router.rs:2090-2100), and a failed final flush drops
  its records: `TickFlush.StartSafeIff`, `TickFlush.LossOnlyAtShutdown`, with `TickFlush.SecondWorkerReorders` as the run.
- `Filled` assigns the filled volume while `PartiallyFilled` adds (src/exchange/order_router.rs:1132):
  `FillDispatch.FilledVolumeIff`, `FillDispatch.OverwriteHappens`. The comment above `process_matching_results` says
  that maker events are ignored; the code applies them.
- Only the first fill of a sweep is flagged as the taker's (src/exchange/order_router.rs:940-979):
  `FillDispatch.RecorderCompleteIff`, `FillDispatch.RecorderMisses`.
- Restoring an order submits its remaining volume again and looks in the answer for the acceptance only
  (src/exchange/order_router.rs:2312-2333); fills answered then are dropped: `FillDispatch.AllReportedIff`.
- An engine id used by two instruments' books breaks the index: `FillDispatch.AcceptKeepsIndexIff`.
- Single dequeues skip a low lane that is exactly full (src/exchange/priority_queue.rs:192-193):
  `PriorityQueue.DequeueNoneIff`, `PriorityQueue.FullLowLaneIsStuck`.
- The reference price of an unpriced position is floored at 0.01 (src/exchange/settlement.rs:517-520), so its forced
  close may be planned above the opening price: `Settlement.PlansRealiseProfitIff`, `Settlement.FloorAddsMoney`.
- With a checkpoint limit of zero each save deletes its own file, and checkpoint names parse more liberally than they
  are written: `Checkpoints.LatestIsLastSaved`, `Checkpoints.ReopenContinuesIff`, `Checkpoints.LatestNotFoundIff`,
  `Checkpoints.ShortNameIsNotFound`.

## Model

| member | source | states |
|---|---|---|
| DagManager.FactorDag.TopologicalSort | src/factor/dag.rs:297-359 | on any dependency-closed graph, cyclic or not, the sort ends and returns each node whose dependency chains are all finite exactly once, dependencies first; a clean cache is returned unchanged; only depths, the cache and the dirty flag change |
| DagManager.Kahn | src/factor/dag.rs:303-345 | the queue loop with its mutable in-degrees and overwritten depths gives such an order, and each depth entry is one more than the deepest popped dependency |
| DagManager.BuildGraph | src/factor/dag.rs:303-319 | in-degrees and adjacency lists count every dependency entry, duplicates included, whatever order the hash map yields |
| DagManager.Relax | src/factor/dag.rs:328-343 | relaxing the edges of one popped node lowers each in-degree by the number of entries, never below zero, and lists the nodes that reach zero once each |
| KahnSort.NoUnderflow | src/factor/dag.rs:334-341 | when a node is popped, every in-degree it lowers is at least the number of entries that lower it |
| KahnSort.StepFifo | src/factor/dag.rs:321-345 | the first-in first-out queue keeps levels nondecreasing along popped-then-queued order and spans at most one level, for any initial order of the roots |
| KahnSort.StepDepths | src/factor/dag.rs:334-341 | although a depth is overwritten on every relaxed edge and never maximised, the last write is the largest |
| KahnSort.StepFrontier | src/factor/dag.rs:328-343 | popped and queued nodes stay exactly those whose dependencies have all been popped |
| KahnSort.FinishedOrder | src/factor/dag.rs:327-345 | with the queue empty, every node left over has an infinite dependency chain |
| KahnSort.WrittenDepthIsLongestChain | src/factor/dag.rs:321-352 | the depth written to a sorted node with dependencies is the length of its longest dependency chain |
| KahnSort.AcyclicIffSorted | src/factor/dag.rs:354-382 | a dependency-closed graph is acyclic exactly when the sort returns all of its nodes |
| DagManager.FactorDag.WriteDepths | src/factor/dag.rs:347-352 | only nodes with an entry in the depth map are rewritten; every other node keeps the depth it had |
| DagManager.FactorDag.DetectCycle | src/factor/dag.rs:362-382 | no answer exactly on acyclic graphs, otherwise the nodes left out of the sort |
| DagManager.FactorDag.AddNode | src/factor/dag.rs:158-187 | both error cases in the order of the checks, the full new graph with one forward edge per dependency entry, and the invariant |
| DagManager.FactorDag.RemoveNode | src/factor/dag.rs:206-229 | the missing-node error, the full new graph with the node deleted from both edge lists of its neighbours, and the invariant |
| DagManager.FactorDag.Clear | src/factor/dag.rs:411-416 | the empty graph and an empty cache, marked dirty |
| DagManager.AddKeepsInv | src/factor/dag.rs:158-187 | adding keeps keys, closedness, forward coverage and the validity of a clean cache |
| DagManager.RemoveKeepsInv | src/factor/dag.rs:206-229 | removing keeps keys, closedness, forward coverage and the validity of a clean cache |
| DagManager.SortKeepsInv | src/factor/dag.rs:297-359 | sorting keeps them and leaves the cache valid |
| DagManager.FactorDag.GetAllDependencies | src/factor/dag.rs:251-265 | the worklist ends with exactly the direct and indirect dependencies, or nothing for an unknown id |
| DagManager.FactorDag.GetAffectedNodes | src/factor/dag.rs:273-294 | exactly the nodes downstream over forward edges, in topological order |
| DagManager.Worklist | src/factor/dag.rs:256-263 | the worklist loop terminates on any graph and computes the transitive closure |
| DagManager.FactorDag.GetParallelLevels | src/factor/dag.rs:385-398 | the sort grouped by stored depth, shallowest group first, each group in sort order |
| DagManager.GroupByDepth | src/factor/dag.rs:388-397 | each group holds the listed nodes of one depth, in list order |
| DagManager.EditsOnlyEdges | src/factor/dag.rs:158-229 | adding stores the node as given, removing drops it, and the other nodes change in their edge lists alone |
| DagRuns.AddKeepsAcyclic | src/factor/dag.rs:161-175 | a new node whose dependencies all exist closes no cycle |
| DagRuns.RunSafe | src/factor/dag.rs:158-229 | every state reachable by add, remove, sort and clear is dependency-closed and acyclic, and a clean cache is a valid order of the current graph with longest-chain depths |
| DagRuns.RunCacheComplete | src/factor/dag.rs:297-301 | in a reachable clean state the cached order lists every node once |
| DagRuns.RunMirrored | src/factor/dag.rs:177-181 | with nodes built by the constructors, forward edges are the exact multiset inverse of dependencies in every reachable state |
| DagRuns.ClosureDuality | src/factor/dag.rs:251-294 | the affected nodes of s are, without repeats and dependencies first, exactly the nodes that have s among all their dependencies |
| DagRuns.FlipReaches | src/factor/dag.rs:273-294 | reachability over forward edges is reversed reachability over dependencies |
| DagRuns.SortStrictIff | src/factor/dag.rs:347-352 | a sort leaves every dependency strictly shallower exactly when the depth already stored on each root is below the longest chain of its dependents |
| DagRuns.RemoveZeroRootsIff | src/factor/dag.rs:206-229 | a removal keeps all roots at depth zero exactly when every node that loses its last dependency is still at depth zero |
| DagRuns.RunStrict | src/factor/dag.rs:385-398 | in every run whose removals orphan no sorted node (add-only runs included) each clean state has strict levels |
| DagRuns.LevelsPartition | src/factor/dag.rs:385-398 | the levels hold every listed node, repeat none within a level, and grow in depth, so no node is in two of them |
| DagRuns.DependencyInEarlierLevel | src/factor/dag.rs:385-398 | with strict levels a dependency is in an earlier level than its dependent |
| DagRuns.StaleDepthScenario | src/factor/dag.rs:347-352 | add A, B on A, C on B, sort, remove A, sort: C depends on B and both carry depth 1 |
| Factors.FactorLocal | src/factor/engine.rs:811-879 | value and next operator state of a factor depend only on the values it reads and on its own operator |
| Factors.SequenceSolves | src/factor/engine.rs:895-900 | evaluating one by one, reads before readers, satisfies every factor equation on the final values and advances each operator once |
| Factors.LevelsSolve | src/factor/engine.rs:765-784 | evaluating level by level satisfies the same equations when no level changes what it or an earlier level reads |
| Factors.SolutionUnique | src/factor/engine.rs:811-860 | the equations have at most one solution once some order puts reads before readers |
| Executor.ParallelEqualsSequential | src/factor/engine.rs:758-784 | with strict levels and registered factors that read only their dependencies, level-parallel execution leaves the same values and operator states as any topological order evaluated one at a time |
| Executor.IncrementalEqualsFull | src/factor/engine.rs:884-900 | recomputing only what is downstream of an unregistered source gives exactly the store of setting the source and executing everything, if all other factors are up to date |
| Executor.ExecuteConsistent | src/factor/engine.rs:758-784 | a full execution of stateless factors leaves a consistent store from any start |
| Executor.IncrementalRunEqualsFullRun | src/factor/engine.rs:884-917 | over any sequence of incremental updates the store equals that of full recomputation after each, and stays consistent |
| Executor.ParallelSoundIff | src/factor/engine.rs:765-784 | level-parallel execution equals one-at-a-time execution, for every agreeing registry, store and topological order, exactly when every stored depth exceeds those of the dependencies |
| Executor.ExecuteSoundIff | src/factor/engine.rs:758-784 | the same condition read off the graph before the sort an execution starts with: each root stored below the longest chain of its dependents |
| Executor.StaleExecution | src/factor/engine.rs:765-784 | executing the graph the stale-depth run leaves behind stores the old value of B in C, where one-at-a-time execution stores the new one |
| Executor.ParallelDagExecutor.SetSource | src/factor/engine.rs:740-743 | one value set, everything else unchanged |
| Executor.ParallelDagExecutor.SetSources | src/factor/engine.rs:746-750 | several values set in arbitrary order, everything else unchanged |
| Executor.ParallelDagExecutor.ComputeFactor | src/factor/engine.rs:811-860 | the factor's value, and its operator advanced by one update if it has one |
| Executor.ParallelDagExecutor.EvaluateLevel | src/factor/engine.rs:766-777 | members of a level evaluated in arbitrary order give the whole-level results |
| Executor.ParallelDagExecutor.ExecuteLevel | src/factor/engine.rs:765-784 | a level is stored only after all of it has been evaluated |
| Executor.ParallelDagExecutor.ExecuteLevels | src/factor/engine.rs:763-784 | the levels one after the other, counting each registered member |
| Executor.ParallelDagExecutor.Execute | src/factor/engine.rs:758-808 | the store after running all levels of the sort, the level count and the number of registered factors computed |
| Executor.ParallelDagExecutor.IncrementalUpdate | src/factor/engine.rs:884-917 | the store after evaluating the affected nodes in topological order, and the number of affected nodes, registered or not |
| Executor.CountedIsAll | src/factor/engine.rs:780-783 | the factors counted level by level are all registered ones, each once |
| FactorLaws.SolvedAdvances | src/factor/engine.rs:817-831 | once evaluated, an operator has taken one more value, its source's stored value, and the factor holds what it gave; without an operator the factor holds the source value |
| FactorLaws.SolvedPlain | src/factor/engine.rs:812-858 | what references, sources, Bollinger factors and unsupported expressions hold, in terms of the stored values |
| FactorLaws.SolvedBinary | src/factor/engine.rs:832-847 | a binary operation holds the sum, difference, product or quotient of what its references hold, zero on division by zero |
| FactorLaws.NestingIsNaming | src/factor/engine.rs:863-879 | nesting two definitions is as good as registering them under names of their own |
| FactorLaws.ExecuteAdvances | src/factor/engine.rs:758-784 | one level-parallel execution advances each operator once, on the final value of its source |
| FactorLaws.SequenceAdvances | src/factor/engine.rs:895-900 | an evaluation one at a time does so too |
| FactorLaws.IncrementalAdvances | src/factor/engine.rs:884-900 | an incremental update sets the source, advances exactly the operators downstream, and leaves every other factor alone |
| FactorLaws.ExecutionsFold | src/factor/engine.rs:758-784 | after k executions an operator has taken the k values of its source, in order, each once |
| FactorLaws.OperatorTakesInputs | src/factor/engine.rs:741-784 | feeding a source k values with an execution after each takes its readers' operators through exactly these values |
| HashRing.InsertedMeaning | src/cluster/consistent_hash.rs:105-117 | after adding, a hash belongs to the new node exactly when it places a virtual node there, and otherwise is as before |
| HashRing.WalkVisitsAll | src/cluster/consistent_hash.rs:161-165 | one rotation visits every virtual node exactly once |
| HashRing.ChainTakeIsWalk | src/cluster/consistent_hash.rs:161-165 | the upper range chained with the whole map and cut to the map's length is that rotation |
| HashRing.SuccessorIff | src/cluster/consistent_hash.rs:143-148 | the virtual node found is exactly the one with no other between the key and it, clockwise |
| HashRing.AddMovesOnlyToNew | src/cluster/consistent_hash.rs:93-117 | adding a node moves a key only to the new node, colliding hashes included |
| HashRing.RemoveMovesOnlyOwned | src/cluster/consistent_hash.rs:127-136 | removing a node moves only the keys it owned |
| HashRing.AddThenRemoveIff | src/cluster/consistent_hash.rs:101-136 | removing a node just added restores the ring exactly when none of its virtual nodes landed on an occupied hash |
| HashRing.ReAddKeepsOldVnodes | src/cluster/consistent_hash.rs:101-117 | adding an id again with fewer virtual nodes frees none of its old ones |
| HashRing.ReAddExactIff | src/cluster/consistent_hash.rs:101-117 | adding an id again leaves it with exactly the virtual nodes of its new weight precisely when it had no others before |
| HashRing.VnodeCountIs | src/cluster/consistent_hash.rs:101-101 | a node gets its weight's percentage of the base, rounded down, while the product fits 32 bits, and the percentage of the wrapped product beyond |
| HashRing.VnodesAre | src/cluster/consistent_hash.rs:105-117 | a new node's virtual nodes are the hashes of its id and index, one per index when these do not collide |
| HashRing.PreferenceExact | src/cluster/consistent_hash.rs:155-181 | the replica walk lists each active owner of a virtual node exactly once |
| HashRing.PreferenceStartsWithOwner | src/cluster/consistent_hash.rs:139-181 | the walk starts with the key's own node when that node is active |
| HashRing.RemovalKeepsPreferences | src/cluster/consistent_hash.rs:127-181 | after a removal each key's whole ordered list is the old one with that node deleted |
| HashRing.AdditionKeepsPreferences | src/cluster/consistent_hash.rs:93-181 | a node placed on free hashes is inserted into each list and the rest keeps its order |
| ShardRouting.ConsistentHashRing.AddNode | src/cluster/consistent_hash.rs:93-124 | the new ring and node table, with the 32-bit virtual node count, and the invariant |
| ShardRouting.ConsistentHashRing.RemoveNode | src/cluster/consistent_hash.rs:127-136 | the node and all its virtual nodes are gone, and the invariant |
| ShardRouting.ConsistentHashRing.UpdateNodeStatus | src/cluster/consistent_hash.rs:203-207 | only the activity flag of an existing node changes |
| ShardRouting.ConsistentHashRing.UpdateNodeLoad | src/cluster/consistent_hash.rs:210-214 | only the load of an existing node changes |
| ShardRouting.ConsistentHashRing.GetNodesWithReplicas | src/cluster/consistent_hash.rs:155-181 | the walk with its seen-set and early exit returns the clockwise preference list cut to the primary and the requested replicas |
| ShardRouting.CollectReplicas | src/cluster/consistent_hash.rs:167-178 | the collecting loop stops exactly at the cut |
| ShardRouting.ReplicasExact | src/cluster/consistent_hash.rs:155-181 | distinct active registered nodes, exactly min(replica count + 1, active owners of virtual nodes) of them |
| ShardRouting.ReplicasPrefix | src/cluster/consistent_hash.rs:155-181 | a larger replica count only appends |
| ShardRouting.ReplicasStartWithOwner | src/cluster/consistent_hash.rs:139-181 | the first replica is the node the plain lookup returns, when active |
| ShardRouting.ReplicasAfterRemoval | src/cluster/consistent_hash.rs:127-181 | removal keeps the ring invariant and deletes one node from every preference list |
| ShardRouting.LeastLoadedIsFirstMinimal | src/cluster/consistent_hash.rs:334-338 | load balancing picks the first eligible node of minimal load |
| ShardRouting.PerformKeepsCacheExact | src/cluster/consistent_hash.rs:300-359 | without load balancing every operation keeps each cached entry naming the current owner of its shard key |
| ShardRouting.CacheTransparent | src/cluster/consistent_hash.rs:300-359 | without load balancing, after any run of routing, additions, removals, status and load changes, routing through the cache answers what the ring alone would |
| ShardRouting.RouteByExchange | src/cluster/consistent_hash.rs:287-327 | by instrument, after any run and without load balancing, every contract of an exchange is routed where the exchange code is looked up |
| ShardRouting.RouteByWholeKey | src/cluster/consistent_hash.rs:287-327 | by account, order or custom key, the whole key is looked up |
| ShardRouting.LookupIsFirstClockwise | src/cluster/consistent_hash.rs:139-152 | a key is looked up at the first virtual node clockwise from its hash, and an empty ring answers nothing |
| ShardRouting.BalancedRoute | src/cluster/consistent_hash.rs:300-339 | with load balancing a usable cache entry is kept, otherwise the first least loaded replica with room answers, or the plain owner when none has room |
| ShardRouting.CacheAfter | src/cluster/consistent_hash.rs:321-359 | routing caches its answer, adding a node forgets everything, removing one forgets exactly its entries, status and load changes touch nothing |
| ShardRouting.SwitchedOffIsSkipped | src/cluster/consistent_hash.rs:203-207 | a node switched off is in no replica list and every other active owner still is |
| ShardRouting.SwitchedOnAgain | src/cluster/consistent_hash.rs:203-207 | switching an active node off and on again changes nothing |
| ShardRouting.LoadMovesNothing | src/cluster/consistent_hash.rs:210-214 | a load report sets that node's load and moves no key |
| ShardRouting.BeforeDot | src/cluster/consistent_hash.rs:292-295 | the instrument shard key is the longest dot-free prefix |
| ShardRouting.ShardRouter.RouteTo | src/cluster/consistent_hash.rs:300-327 | answer and new cache of one call, stale entries dropped first |
| ShardRouting.ShardRouter.RouteWithLoadBalance | src/cluster/consistent_hash.rs:330-339 | the least loaded eligible replica, or the plain owner when none is eligible |
| ShardRouting.ShardRouter.AddNode | src/cluster/consistent_hash.rs:348-352 | the node is added and the whole cache cleared |
| ShardRouting.ShardRouter.RemoveNode | src/cluster/consistent_hash.rs:355-359 | the node is removed and only its cache entries are dropped |
| TickFlush.TickBuffer.Push | src/exchange/order_router.rs:1863-1865 | producers append at the back |
| TickFlush.TickBuffer.Drain | src/exchange/order_router.rs:2113-2123 | up to 1000 records leave from the front, in order |
| TickFlush.TickBuffer.PutBack | src/exchange/order_router.rs:2135-2142 | inserting a failed batch record by record at the front, last first, restores it ahead of later pushes in its own order |
| TickFlush.TickBuffer.DrainAll | src/exchange/order_router.rs:2146-2150 | the shutdown drain takes everything |
| TickFlush.RunConserves | src/exchange/order_router.rs:2090-2163 | with any number of workers and any interleaving, each pushed record is exactly once in an outcome, a worker's hands or the buffer |
| TickFlush.RunInOrder | src/exchange/order_router.rs:2090-2163 | while at most one worker is live, settled batches, batch in flight and buffer, in this order, are the sequence pushed |
| TickFlush.LogIsPrefix | src/exchange/order_router.rs:2125-2143 | until a final flush fails, the written log is a prefix of what was pushed |
| TickFlush.LossOnlyAtShutdown | src/exchange/order_router.rs:2145-2160 | nothing has been lost exactly when no final flush has failed |
| TickFlush.ShutdownComplete | src/exchange/order_router.rs:2145-2160 | a finished final flush, of a full or an empty buffer, leaves in the log everything pushed before the final drain |
| TickFlush.StartSafeIff | src/exchange/order_router.rs:2090-2100 | after a start the log stays a prefix of what is pushed, however the run goes on, exactly when no other worker was live |
| TickFlush.TwoLiveBreak | src/exchange/order_router.rs:2090-2163 | from any state with two live workers, one not in its final write, some continuation leaves a log that is no prefix |
| TickFlush.SecondWorkerReorders | src/exchange/order_router.rs:2090-2100 | a reachable run with two workers writes two records in the wrong order |
| TickFlush.StopIff | src/exchange/order_router.rs:2097-2097 | the stop flag is set exactly while a stop has been requested since the last start |
| TickFlush.LeavesOnlyOnRequest | src/exchange/order_router.rs:2103-2107 | a started worker stays in its loop until a stop is requested after its start |
| TickFlush.LeftAfterStop | src/exchange/order_router.rs:2103-2107 | any worker that has left its loop saw the stop flag set |
| TickFlush.TurnWrites | src/exchange/order_router.rs:2102-2133 | without a stop request one turn of a worker writes exactly the first 1000 records of the buffer, or all of fewer |
| TickFlush.FailedTurnRestores | src/exchange/order_router.rs:2135-2142 | a turn whose write fails leaves everything as it was, ahead of what was pushed meanwhile |
| TickFlush.TurnsWriteAll | src/exchange/order_router.rs:2102-2133 | enough turns write the whole buffer, in order |
| TickFlush.StopExits | src/exchange/order_router.rs:2103-2107 | once a stop is requested the next check takes the worker to its final flush |
| TickFlush.FinalFlushWrites | src/exchange/order_router.rs:2145-2160 | the final flush writes the whole buffer and the worker is done |
| FillDispatch.OrderRouter.HandleSuccessResult | src/exchange/order_router.rs:1038-1439 | the full new state for each event kind, including the state left behind when the trade gateway refuses |
| FillDispatch.OrderRouter.ProcessResult | src/exchange/order_router.rs:904-1030 | one event: first acceptance only, first fill to the submitted order, later fills through the reverse index, failures reject |
| FillDispatch.OrderRouter.ProcessMatchingResults | src/exchange/order_router.rs:888-1032 | the events in order, stopping at the first gateway error |
| FillDispatch.AcceptKeepsIndexIff | src/exchange/order_router.rs:1046-1062 | an acceptance keeps the reverse index exact precisely when the engine id is new |
| FillDispatch.ProcessKeepsIndex | src/exchange/order_router.rs:888-1032 | a batch with one leading acceptance of a new id keeps the index exact |
| FillDispatch.RunIndexExact | src/exchange/order_router.rs:1046-1062 | in every run of submissions, cancellations and restores the reverse index and the stored engine ids name each other |
| FillDispatch.ProcessSweep | src/exchange/order_router.rs:926-979 | over a multi-maker sweep each managed fill is reported once, to the order filed under its engine id |
| FillDispatch.SubmitDelivers | src/exchange/order_router.rs:888-1032 | in any reachable state a submitted sweep delivers every managed fill exactly once and keeps the index |
| FillDispatch.FirstFillIff | src/exchange/order_router.rs:940-950 | the first fill reaches the right order exactly when it is the submitted order's |
| FillDispatch.OnlyFirstRecorded | src/exchange/order_router.rs:940-979 | only the first trade of a sweep carries the taker flag |
| FillDispatch.RecorderCompleteIff | src/exchange/order_router.rs:940-979 | in any reachable state a submitted sweep reports every fill event with the accepted engine id to the submitted order, and records them all exactly when there is at most one |
| FillDispatch.RecorderMisses | src/exchange/order_router.rs:940-979 | a reachable sweep fills the submitted order twice and records it once |
| FillDispatch.RunDelivers | src/exchange/order_router.rs:888-1032 | over whole runs every managed fill of every submission is reported exactly once, in order, to the order filed under its engine id, and nothing else is |
| FillDispatch.RunTradesOf | src/exchange/order_router.rs:888-1032 | over whole runs each order has as many trades as fills |
| FillDispatch.RestoreStep | src/exchange/order_router.rs:2252-2387 | restoring an order touches no other order and reports nothing, whatever fills the engine answers with |
| FillDispatch.AllReportedIff | src/exchange/order_router.rs:2312-2333 | every managed fill the engine emits is reported exactly when no answer to a restored order holds one |
| FillDispatch.RunVolumes | src/exchange/order_router.rs:1127-1249 | over whole runs each order's filled volume is what its start and its own fills make it, also across submissions |
| FillDispatch.FilledVolumeIff | src/exchange/order_router.rs:1127-1249 | in every run an order's filled volume is its start plus all its fills exactly when nothing had been filled before its last Filled event |
| FillDispatch.OverwrittenMeaning | src/exchange/order_router.rs:1127-1133 | what is overwritten is the start plus the fills before the last Filled event, or nothing if there is none |
| FillDispatch.OverwriteHappens | src/exchange/order_router.rs:1127-1249 | a reachable resting order filled by 1 and then by 2 ends with filled volume 2 |
| FillDispatch.SubmittedStatus | src/exchange/order_router.rs:1127-1133 | in every run an order submitted and not cancelled since is Submitted while it has no fill, and Filled or PartiallyFilled by the kind of its last fill |
| FillDispatch.StatusSince | src/exchange/order_router.rs:1240-1246 | between two moments of a run without a cancellation of the order, the last fill filed under its engine id sets its status and time, and nothing else does |
| FillDispatch.CancelStatus | src/exchange/order_router.rs:1442-1560 | a cancel request ends in Cancelled exactly when the owner asks, the order is Submitted or PartiallyFilled and known to the engine, and the engine confirms before any failure |
| FillDispatch.FailureRejects | src/exchange/order_router.rs:1002-1030 | a failure in the engine's answer leaves the order Rejected unless something else than failures and amendments follows |
| FillDispatch.CancellationInAnswer | src/exchange/order_router.rs:993-999 | a cancellation in the answer leaves it Cancelled unless something else than amendments follows |
| FillDispatch.RefusalRejects | src/exchange/order_router.rs:804-812 | a gateway that refuses the acceptance leaves the order Rejected yet filed under its engine id |
| FillDispatch.OnlyFirstAcceptanceFiles | src/exchange/order_router.rs:909-925 | whatever the answer, only its first acceptance files the order |
| FillDispatch.RestoredIsFiled | src/exchange/order_router.rs:2312-2350 | a restored order keeps what its account says and is filed under the first acceptance of the answer |
| FillDispatch.RunStats | src/exchange/order_router.rs:1818-1823 | over whole runs the trade statistics are the number, volume and turnover of all managed fills |
| FillDispatch.SweepVolumes | src/exchange/order_router.rs:926-979 | after a sweep each order's filled volume follows from its own fills and no others |
| FillDispatch.ProcessStops | src/exchange/order_router.rs:943-949 | after a gateway error the remaining events change nothing |
| ConditionalOrders.FinalIsAbsorbing | src/exchange/conditional_order.rs:185-262 | a decided order never changes again |
| ConditionalOrders.LifeIsFirstDecision | src/exchange/conditional_order.rs:185-262 | a pending order stays as created until the first cancel, expiry or crossing price, which fixes its fate |
| ConditionalOrders.SubmittedOnce | src/exchange/conditional_order.rs:200-262 | an order is submitted at most once, exactly when its first deciding event is an unexpired crossing price with a router present |
| ConditionalOrders.SubmittedByPrice | src/exchange/conditional_order.rs:66-80 | in every run an order is submitted at most once, exactly when a check of its instrument reaches its trigger price from the requested side in time, with a router, after no earlier cancellation, expiry or crossing |
| ConditionalOrders.StaysPending | src/exchange/conditional_order.rs:200-262 | an order that no operation ends stays as created |
| ConditionalOrders.FirstEndDecides | src/exchange/conditional_order.rs:185-262 | the first cancellation, expired check or crossing check decides status, trigger time and resulting order for good |
| ConditionalOrders.RunCarries | src/exchange/conditional_order.rs:83-95 | each submission carries the terms of its order, at price zero without a limit |
| ConditionalOrders.FiredByCheck | src/exchange/conditional_order.rs:200-262 | a check fires exactly the pending orders of its instrument whose price it reaches in time |
| ConditionalOrders.EngineRefinesAutomata | src/exchange/conditional_order.rs:126-262 | over any run with distinct ids each order is where its own automaton puts it, and was submitted as often |
| ConditionalOrders.RunInv | src/exchange/conditional_order.rs:126-165 | both indexes list exactly the right orders, each once, in every reachable state |
| ConditionalOrders.ScanActsPerOrder | src/exchange/conditional_order.rs:200-262 | the indexed scan treats each order as if it were examined on its own |
| ConditionalOrders.PerformActsPerOrder | src/exchange/conditional_order.rs:126-262 | one operation keeps the invariant and acts on every order as its automaton does |
| ConditionalOrders.StatusesPartition | src/exchange/conditional_order.rs:271-296 | the five status counts add up to the number of orders |
| ConditionalOrders.ConditionalOrderEngine.CreateOrder | src/exchange/conditional_order.rs:126-165 | the order is stored pending and appended to both indexes |
| ConditionalOrders.ConditionalOrderEngine.CancelOrder | src/exchange/conditional_order.rs:185-197 | both error cases, and only a pending order is cancelled |
| ConditionalOrders.ConditionalOrderEngine.CheckTriggers | src/exchange/conditional_order.rs:200-268 | the new state of the scan and the fired orders in list order |
| ConditionalOrders.ConditionalOrderEngine.Examine | src/exchange/conditional_order.rs:205-262 | one listed order is skipped, expired, triggered or failed |
| ConditionalOrders.ConditionalOrderEngine.GetOrdersByAccount | src/exchange/conditional_order.rs:173-182 | the account's orders, each once, in creation order, and no others |
| ConditionalOrders.ConditionalOrderEngine.GetStatistics | src/exchange/conditional_order.rs:271-296 | each counter is the number of orders in that status and their sum is the total |
| PriorityQueue.PriorityMonotone | src/exchange/priority_queue.rs:104-126 | a larger amount or more VIP users never lower a priority; an order is low exactly when it is neither a VIP's nor large and is below 500 |
| PriorityQueue.VipsAre | src/exchange/priority_queue.rs:84-101 | the VIPs are exactly the users added |
| PriorityQueue.AcceptedIff | src/exchange/priority_queue.rs:133-170 | after any run an order is accepted unless it is no VIP's, not large, below 500, and the low lane is full |
| PriorityQueue.DequeueServesHighest | src/exchange/priority_queue.rs:178-201 | after any run a single dequeue gives the oldest order of its lane, and only when no higher lane holds one |
| PriorityQueue.BatchHighestFirst | src/exchange/priority_queue.rs:210-254 | after any run a batch lists higher priorities first |
| PriorityQueue.LowShareIs | src/exchange/priority_queue.rs:235-235 | a batch may hold a tenth of its size of low orders, and always one |
| PriorityQueue.PriorityOrderQueue.Enqueue | src/exchange/priority_queue.rs:133-170 | the order goes to the back of its lane, or is refused by a full low lane |
| PriorityQueue.PriorityOrderQueue.Dequeue | src/exchange/priority_queue.rs:178-201 | critical, then normal, then a low lane that is neither empty nor full |
| PriorityQueue.PriorityOrderQueue.DequeueBatch | src/exchange/priority_queue.rs:210-254 | the batch is a prefix of each lane, filled in lane order |
| PriorityQueue.PopInto | src/exchange/priority_queue.rs:214-244 | each lane loop takes as long a prefix as room and limit allow, and leaves the rest |
| PriorityQueue.RunConserves | src/exchange/priority_queue.rs:133-254 | in every run each lane is first-in first-out with nothing lost or duplicated, and the low lane respects its limit |
| PriorityQueue.RunConservesMultiset | src/exchange/priority_queue.rs:133-254 | accepted orders are delivered plus queued ones as multisets |
| PriorityQueue.BatchIsMaximal | src/exchange/priority_queue.rs:210-254 | a batch takes from a lane only after emptying the higher ones, and is full, or has its low share, or has emptied the queue |
| PriorityQueue.BatchesDrain | src/exchange/priority_queue.rs:210-254 | repeated non-empty batches drain every lane |
| PriorityQueue.DequeueNoneIff | src/exchange/priority_queue.rs:178-201 | in reachable states a single dequeue gives nothing exactly when the urgent lanes are empty and the low lane is empty or full |
| PriorityQueue.FullLowLaneIsStuck | src/exchange/priority_queue.rs:189-201 | once the low lane is full, no run of enqueues and single dequeues ever changes it |
| Settlement.SettlementEngine.PreCalculateAccount | src/exchange/settlement.rs:770-822 | the loop over the holdings sums each priced side with a positive volume |
| Settlement.ProfitAnyOrder | src/exchange/settlement.rs:781-800 | the profit does not depend on the order in which the hash map yields the holdings |
| Settlement.ProfitSplits | src/exchange/settlement.rs:781-800 | the profit is the net volume of each instrument at its price plus the opening values |
| Settlement.BumpedProfit | src/exchange/settlement.rs:781-800 | raising one price by one moves the profit by the net volume of that instrument |
| Settlement.BalancedProfit | src/exchange/settlement.rs:781-800 | with long equal to short in every priced instrument the profit is the opening value |
| Settlement.PriceFreeIff | src/exchange/settlement.rs:781-800 | the profit is independent of the settlement prices exactly when every priced instrument is balanced |
| Settlement.ForceCloseIff | src/exchange/settlement.rs:802-812 | an account is closed exactly when margin reaches the threshold share of a positive balance, or the balance is gone and the threshold is at most 999 |
| Settlement.SettlementEngine.SettleAll | src/exchange/settlement.rs:642-673 | one result per account, in account order |
| Settlement.SettlementEngine.Tally | src/exchange/settlement.rs:677-730 | counts add up to the accounts, and totals, forced closes, queue and histories follow from the successes alone |
| Settlement.BookedTallies | src/exchange/settlement.rs:683-730 | booking one result after the other amounts to the sums and filtered lists over all successes |
| Settlement.SettlementEngine.DailySettlement | src/exchange/settlement.rs:610-767 | the result and the whole new engine state; a day without accounts leaves no trace |
| Settlement.DayProfit | src/exchange/settlement.rs:683-688 | the day's total is all closed profit plus one mark-to-market over all settled holdings |
| Settlement.DayProfitPriceFreeIff | src/exchange/settlement.rs:683-688 | the day's total is independent of the prices exactly when the settled accounts together are balanced |
| Settlement.RecordsCarry | src/exchange/settlement.rs:833-872 | the day's records are those of the accounts that settle, in order, each carrying its account's own figures, risk ratio and forced-close decision |
| Settlement.DayCommission | src/exchange/settlement.rs:683-688 | the day's total commission is that of the accounts that settle |
| Settlement.SettlementEngine.Remember | src/exchange/settlement.rs:714-723 | an account's history grows by one and keeps its last 180 entries |
| Settlement.HistoryIsRecent | src/exchange/settlement.rs:714-723 | after any number of days an account's history is its last 180 settlements |
| Settlement.BuildForcePlans | src/exchange/settlement.rs:502-540 | one closing plan per side with a positive volume, at the settlement price or a floored opening price |
| Settlement.PlansFlatten | src/exchange/settlement.rs:502-540 | the plans close exactly what is held, per instrument and side |
| Settlement.PlansRealiseProfit | src/exchange/settlement.rs:502-540 | at their reference prices the plans bring in the marked-to-market profit over the opening values, plus what the price floor adds to long sides, less what it adds to short sides |
| Settlement.FloorTotalSign | src/exchange/settlement.rs:517-534 | the floor adds nothing to a side exactly when no unpriced holding held on it was opened below the minimum price |
| Settlement.PlansRealiseProfitIff | src/exchange/settlement.rs:502-540 | while only one side can be floored the plans bring in exactly that profit precisely when no held side is floored |
| Settlement.FloorAddsMoney | src/exchange/settlement.rs:517-520 | an unpriced long unit opened at zero is planned to be sold for the minimum price |
| Settlement.NoPlansIff | src/exchange/settlement.rs:502-540 | there are no plans exactly when no holding has a positive volume |
| Checkpoints.NameRoundTrip | src/factor/state.rs:208-241 | every 64-bit id survives formatting to a file name and parsing back |
| Checkpoints.NameShape | src/factor/state.rs:237-241 | ids of up to 16 digits are written with exactly 16 between prefix and suffix |
| Checkpoints.LiberalNames | src/factor/state.rs:213-222 | names parse unpadded, with a plus sign, or with prefix and suffix repeated; ids beyond 64 bits and empty ones do not |
| Checkpoints.FindLatestCheckpointId | src/factor/state.rs:208-228 | the greatest id among the parsable names, or zero, whatever the directory order |
| Checkpoints.StateStore.SaveCheckpoint | src/factor/state.rs:244-282 | the snapshot is written under the next id and the directory cleaned up; the counter wraps at 64 bits |
| Checkpoints.StateStore.CleanupOldCheckpoints | src/factor/state.rs:346-378 | other files stay, at most the limit of checkpoints remains, none of them older than a removed one |
| Checkpoints.SortById | src/factor/state.rs:366-367 | the entries in id order, none lost or added |
| Checkpoints.StateStore.LoadCheckpoint | src/factor/state.rs:285-332 | not found, foreign version, or the snapshot |
| Checkpoints.StateStore.LoadLatestCheckpoint | src/factor/state.rs:335-343 | nothing when the latest id is zero, otherwise the load of that id |
| Checkpoints.CleanedTwice | src/factor/state.rs:346-378 | cleaning up after each of two saves leaves what one clean-up at the end would |
| Checkpoints.RunIsOneCleanup | src/factor/state.rs:244-282 | a run of saves keeps what a single final clean-up would keep, whatever the directory held at first |
| Checkpoints.RetainsNewest | src/factor/state.rs:346-378 | from a directory without checkpoints any run of saves leaves exactly the newest min(n, limit) ids with their snapshots, other files untouched |
| Checkpoints.LatestIsLastSaved | src/factor/state.rs:335-343 | loading the latest gives the last snapshot saved or its version error, and nothing exactly with a limit of zero |
| Checkpoints.ReopenContinuesIff | src/factor/state.rs:194-205 | reopening goes on with the next id exactly if the limit is at least one |
| Checkpoints.WrappedIdIsNotLatest | src/factor/state.rs:231-234 | a checkpoint saved under a wrapped id is never the latest |
| Checkpoints.LatestNotFoundIff | src/factor/state.rs:335-343 | in an arbitrary directory the latest checkpoint is not found exactly when its id is positive and its file does not go by the name written for it |
| Checkpoints.CanonicalIsFound | src/factor/state.rs:335-343 | it is found in every directory whose checkpoints go by the names written for them |
| Checkpoints.ShortNameIsNotFound | src/factor/state.rs:208-241 | a lone checkpoint without the leading zeros in its name counts as the latest and is not found |
| StateCaching.StateCache.Update | src/factor/state.rs:438-442 | the state is stored under its instrument and marked dirty |
| StateCaching.StateCache.GetDirty | src/factor/state.rs:455-466 | exactly the dirty states, each once |
| StateCaching.StateCache.CreateSnapshot | src/factor/state.rs:469-482 | every stored state once, with the current version |
| StateCaching.StateCache.RestoreFromSnapshot | src/factor/state.rs:485-494 | the cache holds the snapshot's states, later duplicates winning, none dirty |
| StateCaching.DirtyIffUpdatedLast | src/factor/state.rs:438-500 | an instrument is dirty exactly when the last operation that concerns it was an update |
| StateCaching.LastStateWins | src/factor/state.rs:438-500 | the cache holds for an instrument what the last update, restore or clear left |
| StateCaching.RestoreRoundTrip | src/factor/state.rs:469-494 | restoring a snapshot gives back the instruments it was taken of |
| StateCaching.RestartRecovers | src/factor/state.rs:244-343 | after any run of saves ending with a snapshot of the cache, loading the latest and restoring it recovers the cache |

## Left out

- The `qars` matching engine and accounts are not part of this model: matching enters as an arbitrary list of events,
  an account's own settlement as the state read back afterwards or a failure.
- Fill-or-kill and immediate-or-cancel handling, pre-trade checks, funds and the rest of order submission; for
  dispatch, a submission is a new order record followed by the engine's events.
- `StreamOperator` internals (operators/rolling.rs): a state with an arbitrary update function. `BatchFactorEngine` and
  `StreamFactorEngine`, whose batch cases are placeholders.
- The standard registry and the standard DAG name the same factors differently (`ma5`, `ma_5`); the executor theorems
  are about arbitrary registries and graphs that agree.
- The executor's `init_factor`, `init_all`, `reset` and statistics, and the map accessors of every component.
- The factor language: grammar, parser and printer.
- Locks and memory ordering: operations are atomic, except the flush workers, which interleave at every lock,
  storage call and stop-flag read. A batch write either writes all of its records or none.
- Write-ahead log, serialisation, compression, file errors, notifications, network, logging, metrics and timings.
  A stored snapshot reads back as it was written.
- Floating-point rounding, infinities and NaN: amounts and loads are reals, factor values an arbitrary type.
- 32-bit and 64-bit overflow is modelled as wrap-around, as in release builds: virtual node counts and checkpoint ids.
  Hash values, sizes and volumes are otherwise unbounded.
- ShardRouting.CacheTransparent: does not cover load balancing, where a cached answer deliberately outlives changes of load.
- TickFlush.RunInOrder: requires that no worker is started while another is live, because the code does not guard
  against it; TickFlush.StartSafeIff shows the condition exact, and conservation (TickFlush.RunConserves) needs none.
- TickFlush.TwoLiveBreak: leaves out states whose live workers are all in their final write, where only the batches
  already drained can still change places, unnoticed when they hold equal records.
- FillDispatch.RunDelivers: requires gateways that accept every report and an engine that keeps to its contract;
  FillDispatch.ProcessStops covers a refusal.
- Executor.IncrementalEqualsFull: requires the factors that are not downstream to be up to date and not to pass through
  an operator, as a full execution would advance their operators.
- Checkpoints.RunIsOneCleanup: requires that ids do not wrap around; Checkpoints.WrappedIdIsNotLatest shows why.
- DagManager.FactorDag.GetAllDependencies: one worklist method serves both closure queries; the forward query runs it
  on the flipped graph.
- The queue's length peak, statistics and clear; settlement's force-close worker, pricing and order submission, and the
  single-account settlement path, which repeats the same arithmetic.
- Account opening, user login, instrument registry, id generation and trading calendar: plain map updates.
