# Stroid: a verified model of its state engine

Stroid keeps named stores, derives computed stores from them, tells subscribers about changes in
flushes, and groups writes into batches. This project models those parts in Dafny and proves what they
are for:

* **Computed graph** (`ComputedGraph.dfy` over `Graphs`, `TopoOrder`, `Evaluation`): registration keeps
  the graph acyclic and its reverse index exact; the cached order of affected computeds is the
  lexicographically least topological order; memoised evaluation is plain recursive evaluation.
* **Propagation protocol** (`FlushProtocol`, `FlushConsistency`, `FlushCare`, `FlushVersions`,
  `FlushConvergence`, `StaleAtRest`): a step system of writes to any store, batches with what they stage, flushes, deliveries,
  registrations, recomputes and hydration passes. After every run, at rest, it says exactly which
  computeds are fresh, what makes the others stale and which runs keep clear of that; and it settles
  within one flush more than the longest dependency chain.
* **Flush runtime** (`FlushRuntime` over `FlushRequests`, `FlushRuns` and `HydrationRecompute`): the
  imperative code, each method the run of that system that was asked for, from the empty registry on; a
  flush calls exactly the listeners that it should, with the values that it should. Listeners remember
  what they like and may write, create, compute, delete, invalidate, subscribe, unsubscribe, and do all
  that in batches. Also hydration with its recompute pass, and flushes both inline and by the scheduler.
* **Transactions** (`Transactions`, `TransactionRuntime`): a batch that fails leaves stores, counters,
  pending stores and patches as they were, but not initialisers that it has run, nor what it has done to
  computeds; a batch that succeeds is the same writes made one by one.
* **Chunked delivery** (`ChunkedDelivery` over `ChunkedTasks`): slices, late subscribers, version checks,
  the priority phase and re-queueing, with anyone writing, subscribing and unsubscribing at any point;
  it ends, and is done once, unless subscriptions keep coming.
* **Patches** (`PatchPaths`, `PatchBatches`): when a merge, deletion or insertion at a path succeeds and
  what is read afterwards, their inverses and commutation, and atomicity of a list of patches.
* **Smaller routines**: the two-row edit distance (`EditDistance`), the early-exit size estimate
  (`SizeEstimate`), the rate limiter (`RateLimit`) and the async slot index (`AsyncSlots`).

Stores are maps from names (sequences of UTF-16 code units) to tree values. User code is a parameter:
compute functions are pure functions that may throw or yield undefined, listeners and commit hooks are
functions that say what they ask for and whether they throw, the former depending on all that has
happened, by the number of the call. Lazy initialisers yield a value or fail, and shallow equality is an
arbitrary relation. Clock readings are parameters. Sanitising, validation and middleware are, in the
protocol, an arbitrary predicate that refuses values, which may depend on the value held; elsewhere the
identity, or a rejection where the source can reject.

## Where the code does not do what it promises

* A batch whose body throws a falsy value (`throw undefined`, `throw 0`) commits instead of failing,
  because `endTransaction` and `setStoreBatch` test the error by truthiness
  (src/core/store-transaction.ts:230, src/core/store-notify.ts:89-94). `Transactions.ThrowingBodyFails`
  says exactly when, `Transactions.FalsyThrowCommits` gives the input.
* A set refused because its store's lazy initialiser failed does not mark the batch
  (src/core/store-set-impl.ts:127), nor does a replace under an empty name
  (src/core/store-replace-impl.ts:44), so the batch goes through and its other writes are committed.
  `Transactions.BatchSucceedsIff` says exactly when, `Transactions.FailedInitialiserCommits` and
  `Transactions.EmptyNameCommits` give the inputs.
* A batch that fails while committing does not restore the initialisers that its steps have run
  (src/core/store-transaction.ts:131-167): the value is rolled back, the initialiser is gone, and the lazy
  store reads as undefined from then on. `Transactions.LazyStoreAfterRollback` says exactly for which
  stores, `Transactions.RollbackForgetsInitialiser` gives the body: a hook that runs during the commit
  takes away the meta entry of a store that is still to be committed.
* A batch that fails does not undo what it has done to computeds (src/computed/index.ts:117-146 and
  205-213, src/core/store-transaction.ts:226-274): last outputs stay moved, the recompute of a running
  flush stays spent, and a registration made over an existing store stays, with nothing written. A
  computed whose output comes back to such a last output is never written again.
  `StaleAtRest.FailingBatchStrands` and `StaleAtRest.CreatedInFailingBatch` give the runs from the empty
  registry, `StaleAtRest.WhenStranded` and `StaleAtRest.WhenFailingStrands` say exactly when a call and
  the end of a failing batch strand a computed.
* A computed whose function yields what its store refuses, undefined above all, keeps its old value with
  nothing pending: the last output is moved first and the refusal is ignored
  (src/computed/index.ts:211-214, src/core/store-replace-impl.ts:88-93).
  `StaleAtRest.UndefinedIsWithheld` gives the run from the empty registry,
  `FlushCare.FreshUnlessRefused` says that refused outputs are exactly the exception.
* A subscriber that re-creates a computed whose old closure is on the list of subscribers being called
  can leave the computed at rest on its old function's value. `StaleAtRest.OldClosureWins` gives the run
  from the empty registry, `StaleAtRest.WhenMisled` says exactly which call misleads a computed.
* `FlushConsistency.ConsistentAtRest` says that, with writes over a computed's own value, these are all
  the ways: at rest exactly the computeds that were last misled or stranded, or whose store refuses their
  output, are stale. `FlushCare.CarefulMeansFaithful`: nobody is misled or stranded if no computed is
  re-created while a task whose turn has begun still holds its closure, no computed's own store is
  written, and no batch fails that has recomputed or created a computed.
* Chunked delivery need not come to an end: subscribers that each subscribe a new one are requeued for
  ever (src/notification/delivery.ts:289-305), and `done` is never called.
  `ChunkedDelivery.NewcomersNeverDone` gives the input; `ChunkedDelivery.DeliveryRun.RunDisturbed` bounds
  the chunks of any run by the calls owed at its start and the subscriptions made in it to stores that
  still had a task, and `ChunkedDelivery.DeliveryRun.RunToEnd` says that any bound on subscriptions to
  the stores of the plan is enough for an end.
* After hydration a computed whose own store was in the snapshot keeps the hydrated value if its function
  yields its last output again (src/core/store-hydrate-impl.ts:398-399).
  `HydrationRecompute.HydratedValueStands` gives the input, `HydrationRecompute.RightUnlessStuck` says
  exactly when.
* `estimateRoughJsonBytesBounded` answers 2 under a limit of 1 for an empty array and for every object;
  in all other cases it keeps its limit (`SizeEstimate.EstimateWithinBounds`,
  `SizeEstimate.LimitOfOneOverrun`).

## Model

| member | source | states |
|---|---|---|
| ComputedGraphs.ComputedGraph.Search | src/computed/computed-graph.ts:70-83 | Depth-first search for the node being registered: finds a genuine dependency path, or leaves a closed set of explored nodes without it, although the set is shared by all roots. |
| ComputedGraphs.ComputedGraph.DetectCycle | src/computed/computed-graph.ts:65-93 | Answers a trace if and only if the new node is reachable from its dependencies; the trace is a real dependency path from the node back to itself. |
| ComputedGraphs.ComputedGraph.RemoveLinks | src/computed/computed-graph.ts:95-103 | Takes the node out of exactly the buckets of its dependencies and leaves no bucket empty. |
| ComputedGraphs.ComputedGraph.AddLinks | src/computed/computed-graph.ts:133-140 | Puts the node into exactly the buckets of its dependencies. |
| ComputedGraphs.ComputedGraph.RegisterComputed | src/computed/computed-graph.ts:105-145 | Accepts if and only if the graph with the new entry in place of any old one is acyclic; otherwise changes nothing. The graph stays acyclic, the dependents index its exact inverse, the cache exact. |
| ComputedGraphs.ComputedGraph.UnregisterComputed | src/computed/computed-graph.ts:147-155 | Removes exactly that entry, keeping acyclicity, the exact index and the cache. |
| ComputedGraphs.ComputedGraph.CollectDownstream | src/computed/computed-graph.ts:255-272 | The breadth-first closure is exactly the computeds strictly downstream of the sources. |
| ComputedGraphs.ComputedGraph.ExpandComputedDeps | src/computed/computed-graph.ts:276-286 | Adding a computed's upstream computeds yields a set closed under dependencies and nothing else. |
| ComputedGraphs.ComputedGraph.CollectAffected | src/computed/computed-graph.ts:255-288 | The affected set is the downstream computeds with all their upstream computeds, by its declarative definition. |
| ComputedGraphs.ComputedGraph.CountEdges | src/computed/computed-graph.ts:290-306 | In-degrees count dependency occurrences inside the affected set, and the adjacency lists hold the same edges. |
| ComputedGraphs.ComputedGraph.Release | src/computed/computed-graph.ts:319-328 | Taking a node off lowers degrees and extends the sorted ready list so that both describe the remaining nodes. |
| ComputedGraphs.ComputedGraph.SortAffected | src/computed/computed-graph.ts:308-331 | The sorted Kahn loop returns the order defined by always taking the least ready node. |
| ComputedGraphs.ComputedGraph.ComputeTopoOrder | src/computed/computed-graph.ts:255-332 | The result depends on the graph and the set of sources only. |
| ComputedGraphs.ComputedGraph.GetTopoOrder | src/computed/computed-graph.ts:334-355 | The cached answer equals a fresh computation on the current graph, also for reordered or duplicated source lists that share a key, under any interleaving with register and unregister. |
| ComputedGraphs.ComputedGraph.Evaluate | src/computed/computed-graph.ts:454-499 | Memoised evaluation equals plain recursive evaluation, every memo entry is the true result, and no cycle error is possible. |
| ComputedGraphs.ComputedGraph.EvaluateFromSnapshot | src/computed/computed-graph.ts:501-516 | Succeeds if and only if the node and every computed it depends on are deterministic, and then gives the recursive evaluation on the snapshot. |
| ComputedGraphs.HeadIsNext | src/computed/computed-graph.ts:308-329 | The head of the ready list is the least node whose dependencies are all out, so popping it continues the specified order. |
| ComputedGraphs.ReadyIsDegreeZero | src/computed/computed-graph.ts:308-312 | A node is ready exactly when its in-degree is zero. |
| Graphs.AcyclicAfterAdding | src/computed/computed-graph.ts:111-117 | A node not reachable from its dependencies keeps the graph acyclic. |
| Graphs.CyclicAfterAdding | src/computed/computed-graph.ts:111-117 | A node reachable from its dependencies makes the graph cyclic: the refusal is never needless. |
| Graphs.AcyclicAfterRemoving | src/computed/computed-graph.ts:147-155 | Removing an entry keeps the graph acyclic. |
| Graphs.AcyclicHasNoLoop | src/computed/computed-graph.ts:65-93 | An acyclic graph has no dependency path from a node to itself. |
| Graphs.ChainAtMostHeight | src/computed/computed-graph.ts:454-499 | No dependency chain from a node is longer than its height. |
| Graphs.ChainOfHeight | src/computed/computed-graph.ts:454-499 | Some dependency chain is exactly that long: height is the longest chain. |
| TopoOrder.AffectedExact | src/computed/computed-graph.ts:255-288 | What the two closures collect is the affected set. |
| TopoOrder.OrderIsTopological | src/computed/computed-graph.ts:290-331 | The order holds every affected computed once, each after its dependencies. |
| TopoOrder.OrderIsLeast | src/computed/computed-graph.ts:308-329 | No topological order of the same set is lexicographically smaller. |
| TopoOrder.SortUniqueSorts | src/computed/computed-graph.ts:334-337 | The cache key is the sorted list of the set of sources. |
| Names.LessAtFirstDifference | src/computed/computed-graph.ts:314-317 | Names are ordered at their first difference, by code units; a proper prefix comes first. |
| Evaluation.FreshStoresEvaluate | src/computed/computed-graph.ts:454-499 | Where every computed is up to date, the stored value is the recursive evaluation. |
| Evaluation.EvalReadsLeaves | src/computed/computed-graph.ts:474-499 | If no compute function throws, evaluation reads leaves only. |
| Evaluation.EvalResultValue | src/computed/computed-graph.ts:454-499 | A successful result is the plain evaluation's value. |
| Evaluation.EvalSucceeds | src/computed/computed-graph.ts:468-485 | Evaluation succeeds if and only if everything it needs is deterministic. |
| Evaluation.EvalRankFree | src/computed/computed-graph.ts:454-499 | The result does not depend on the rank that justifies termination. |
| Evaluation.FirstFailure | src/computed/computed-graph.ts:475-485 | The error is that of the first dependency that fails, in list order. |
| Evaluation.ErrorNamesItsCause | src/computed/computed-graph.ts:466-485 | It names what is in the way: the node itself if it is no computed or not deterministic, else a deterministic computed that the node reaches and a dependency of it that is not deterministic. |
| FlushConsistency.StepKeeps | src/computed/index.ts:189-216 | Every step keeps the invariant: a computed that no open batch has touched has a pending dependency, or one that can still tell it in this flush while its own once-per-flush guard is unset, or else it is up to date exactly if it is neither misled nor stranded. |
| FlushConsistency.RunKeeps | src/notification/index.ts:14-36 | Every run keeps it, batches that go through, fail, nest or are rolled back included. |
| FlushConsistency.ConsistentAtRest | src/computed/index.ts:189-216 | After any run, when nothing is pending, no flush runs and no batch is open, a computed store equals its function on its dependencies' current values exactly if it is neither misled nor stranded and its store does not refuse that value. |
| FlushConsistency.EveryRunFromStart | src/computed/index.ts:74-236 | The same for all runs from an empty registry, with computeds created, deleted, re-created, invalidated and overwritten at any point, inside batches too, and listeners coming and going. |
| FlushConsistency.RecomputeKeeps | src/computed/index.ts:189-216 | A recompute by any closure, current or not, run or skipped by the guard, written or refused, keeps the invariant for the computed and for all that depend on it. |
| FlushConsistency.RerunKeeps | src/core/store-hydrate-impl.ts:390-404 | So does one recompute of the pass after hydration, which no guard holds back. |
| FlushConsistency.WriteKeeps | src/core/store-write-shared.ts:117-203 | So does a user's write to any store, a computed's own included, committed or staged. |
| FlushConsistency.DeliverKeeps | src/notification/delivery.ts:97-126 | Calling one subscriber keeps it. |
| FlushConsistency.QueueEventKeeps | src/notification/delivery.ts:77-139 | Beginning a store's turn, refreshing its list, dropping and retiring it keep it. |
| FlushConsistency.StartFlushKeeps | src/notification/priority.ts:21-58 | Clearing the pending set while planning keeps it: each dependency moves from pending to a task whose turn has not begun. |
| FlushConsistency.FinishKeeps | src/notification/index.ts:29-33 | Ending a flush keeps it. |
| FlushConsistency.CreateKeeps | src/computed/index.ts:117-154 | Creating a computed keeps it, at any point of a flush or a batch, with whatever closures of earlier registrations are still to be called. |
| FlushConsistency.InvalidateKeeps | src/computed/index.ts:218-226 | Invalidating one keeps it, at any point of a flush or a batch. |
| FlushConsistency.DeleteKeeps | src/computed/index.ts:228-237 | Deleting one keeps it. |
| FlushConsistency.SubscribedLast | src/computed/index.ts:142-148 | A registration puts its closure last in the subscriber lists of its dependencies, once for each position, and touches no other list. |
| FlushConsistency.EndKeeps | src/core/store-transaction.ts:226-274 | The end of a batch keeps it, inner or outermost, committed or not: the computeds it has touched are stranded exactly if they are out of date with no dependency committed. |
| FlushConsistency.StepKeepsAcyclic | src/computed/index.ts:117-123 | Every step keeps the graph acyclic. |
| FlushConsistency.StepKeepsWoken | src/notification/scheduler.ts:24-31 | No wake-up is lost: a pending store outside a batch has a flush scheduled or running. |
| FlushConsistency.UnscheduledMeansConsistent | src/notification/index.ts:29-42 | With flushes run by the scheduler, an idle scheduler outside batches means nothing is pending and every computed is fresh that is neither misled, stranded nor withheld. |
| FlushVersions.StepCounts | src/core/store-write-shared.ts:117-146 | In every step the version of a store that exists does not fall, and rises if its value changes. |
| FlushVersions.RunCounts | src/notification/delivery.ts:136-139 | So over any run: a store with the version it had holds the value it had, which is what the version check of a delivery rests on. |
| FlushVersions.CommitsCount | src/core/store-transaction.ts:238-261 | A batch that commits raises the version of each store by the number of its writes to it. |
| FlushCare.LiveCurrentKept | src/computed/index.ts:95-100 | Subscriber sets never hold a closure of a registration that is gone. |
| FlushCare.TasksCurrentKept | src/notification/delivery.ts:96-99 | Nor do tasks whose turn has begun, if no computed is re-created while one holds its closure. |
| FlushCare.CarefulMeansFaithful | src/notification/delivery.ts:96-99 | Under that condition, and if no computed's own store is written and no batch fails that has recomputed or created a computed, no run ever misleads or strands one. |
| FlushCare.AcceptedStaysOverRuns | src/core/store-replace-impl.ts:88-93 | Where a store goes on accepting what it has accepted, one that holds an accepted value does so for ever, batches included. |
| FlushCare.FreshUnlessRefused | src/computed/index.ts:207-214 | So at rest a computed that is neither misled nor stranded, and whose store has held a value it accepts, is fresh exactly when its function's outcome is not a refused one. |
| StaleAtRest.WhenMisled | src/computed/index.ts:189-214 | A call by the closure of any registration leaves the computed misled exactly if the present function has another output than the calling one, the store accepts it, and the call leaves something else there. |
| StaleAtRest.AgreeingClosure | src/computed/index.ts:189-214 | So an old closure does no harm where both functions agree on the dependencies' present values. |
| StaleAtRest.WhenStranded | src/computed/index.ts:205-213 | A call leaves the computed stranded exactly if it comes with the present function's output, that is the last output already, and the store holds something else and would accept it. |
| StaleAtRest.WhenFailingStrands | src/core/store-transaction.ts:226-274 | A failing outermost batch strands, of the computeds it has recomputed, created or overwritten, exactly those whose stores hold something else than their functions' outputs and would accept them. |
| StaleAtRest.UndefinedIsWithheld | src/computed/index.ts:207-214 | Concrete run from the empty registry: the function yields undefined, the store keeps its old value, and nothing is pending. |
| StaleAtRest.OldClosureWins | src/computed/index.ts:95-100 | Concrete run from the empty registry: re-created by a listener while its old closure is on the list being called, a computed comes to rest on its old function's value. |
| StaleAtRest.FailingBatchStrands | src/computed/index.ts:207-211 | Concrete run from the empty registry: a batch changes a leaf, invalidates its copy and fails; the same change made outside leaves the copy at rest on the old value. |
| StaleAtRest.CreatedInFailingBatch | src/computed/index.ts:125-146 | Concrete run from the empty registry: a computed created over a store in a batch that fails is registered, with its store unwritten, and its last output is neither the value held nor its function's output. |
| FlushConvergence.StepSettled | src/computed/index.ts:189-216 | With no writers and nobody misled or stranded, computeds up to level k neither change nor go out of date, and each finished flush raises k by one. |
| FlushConvergence.QuietRun | src/notification/index.ts:14-36 | The same over runs: k flushes settle k levels. |
| FlushConvergence.NothingMovesAfterItsLevel | src/computed/index.ts:189-216 | A computed of height r never changes after flush r. |
| FlushConvergence.AllYield | src/computed/index.ts:189-216 | If no compute function throws or yields anything refused, that is so for every name. |
| FlushConvergence.YieldedValues | src/computed/index.ts:189-216 | Where all are up to date, a name whose evaluation on the leaves meets no throw and no refused output holds that evaluation. |
| FlushConvergence.ConvergenceBound | src/computed/index.ts:189-216 | Once no one writes, with nobody misled or stranded and last outputs in step with the stores, longest chain plus one flushes empty the pending set, leave leaves alone, and leave fresh exactly the computeds whose output is not refused, each name whose evaluation on the leaves meets no throw or refusal at that evaluation. |
| FlushRuntimes.FlushRuntime.constructor | src/computed/index.ts:74-94 | The empty registry satisfies the invariant, with nobody misled or stranded. |
| FlushRequests.EachIsHeard | src/notification/delivery.ts:96-100 | Exactly the listeners among a list of subscribers are called, in its order, each with the snapshot, and each asks for what it says at that call. |
| FlushRequests.LeavesAreHeard | src/notification/delivery.ts:77-139 | Where listeners ask for nothing, every listener of a leaf in the plan is called with the value that the leaf has when the flush begins. |
| FlushRuns.PlanInOrder | src/notification/priority.ts:21-58 | The plan begins with the pending priority stores in configured order, then come the other pending stores in order of notification, then computeds that are not pending in graph order; every pending store is in the first two parts. |
| FlushRuntimes.FlushRuntime.CommitWrite | src/core/store-notify.ts:39-44 | A committed write: value, version, pending and scheduling as the protocol's commit. |
| FlushRuntimes.FlushRuntime.SettleOutput | src/computed/index.ts:205-213 | An unchanged output does nothing; else the last output moves, and the store with it unless it refuses. |
| FlushRuntimes.FlushRuntime.RecomputeAndFlush | src/computed/index.ts:189-216 | The guarded recompute, by whichever closure calls it, is the protocol's recompute step. |
| FlushRuntimes.FlushRuntime.RecomputeStaged | src/computed/index.ts:189-216 | Inside a batch the recompute reads what is staged and stages its output: the protocol's step. |
| FlushRuntimes.FlushRuntime.WriteUser | src/core/store-replace-impl.ts:39-129 | A user's write is exactly the protocol's step for it, accepted exactly if the store exists and does not refuse the value; a refused one fails an open batch and does nothing outside. |
| FlushRuntimes.FlushRuntime.CreateLeafStore | src/core/store-create.ts:72-221 | Creating a store is a protocol step; it fails an open batch, and outside one succeeds exactly if the store exists already or the value is not refused; earlier subscribers are notified. |
| FlushRuntimes.FlushRuntime.Listen | src/core/store-notify.ts:100-104 | Subscribing a listener is the protocol's step for it: it is put last, unless the store has it already. |
| FlushRuntimes.FlushRuntime.StopListening | src/core/store-notify.ts:105-111 | Unsubscribing it, too: it is gone from that store, everybody else stays. |
| FlushRuntimes.FlushRuntime.Compute | src/computed/index.ts:95-163 | createComputed is a protocol run: without a name or a dependency it does nothing; else an old registration goes first, and the new one stays exactly if every dependency has a name, it makes no cycle, and its store exists or can be created, which inside a batch it cannot. |
| FlushRuntimes.FlushRuntime.StopComputing | src/computed/index.ts:228-237 | deleteComputed is a protocol run that removes exactly that registration. |
| FlushRuntimes.FlushRuntime.InvalidateComputed | src/computed/index.ts:218-226 | invalidateComputed is the protocol's step for it where there is such a computed, inside a batch and outside, and nothing otherwise. |
| FlushRuntimes.FlushRuntime.PerformAll | src/notification/delivery.ts:99-100 | Whatever a listener asks for, of all these, batches included, is carried out: exactly the events that the requests come to, each where the one before has led, in a run that keeps the invariant and the graph. |
| FlushRuntimes.FlushRuntime.SetStoreBatch | src/core/store-notify.ts:71-98 | A batch is opened, exactly what its body asks for is done, and it is closed as the body ended; the invariant is kept and the depth is as it was. |
| FlushRuntimes.FlushRuntime.OpenBatch | src/core/store-notify.ts:73-73 | A batch that opens is the protocol's step. |
| FlushRuntimes.FlushRuntime.CommitAll | src/core/store-transaction.ts:238-261 | The loop over the staged writes leaves their overlay, with one version bump each, and all of them pending. |
| FlushRuntimes.FlushRuntime.CloseBatch | src/core/store-notify.ts:83-89 | The end of a batch is the protocol's step: an inner one only tells of failure, the outermost commits or drops what is staged and schedules a flush exactly when stores are pending. |
| FlushRuntimes.FlushRuntime.OrderPending | src/notification/priority.ts:27-47 | Priority names first in their configured order, then the rest in pending order; pending is emptied. |
| FlushRuntimes.FlushRuntime.BuildFlushPlan | src/notification/priority.ts:21-58 | The plan is the ordered pending names followed by the affected computeds that are not among them; every pending name is in it. |
| FlushRuntimes.FlushRuntime.CallSubscriber | src/notification/delivery.ts:99-125 | One call: of a computed's closure, or of a listener, which is recorded with its number, store and snapshot, and whose requests at that call, which may depend on everything before, are exactly what happens next. |
| FlushRuntimes.FlushRuntime.CallListener | src/notification/delivery.ts:100-100 | The listener is called once, with its number, id and snapshot, and what it answers is carried out. |
| FlushRuntimes.FlushRuntime.OpenHead | src/notification/delivery.ts:78-96 | A store's turn begins: its version and its subscribers at that time are read. |
| FlushRuntimes.FlushRuntime.DeliverStore | src/notification/delivery.ts:78-139 | One store of the plan: every subscriber of the set copied at its turn is called once, in order; the listeners among them, and nobody else, with the store's value at that time; and the store is pending again if its version moved. |
| FlushRuntimes.FlushRuntime.DeliverInline | src/notification/delivery.ts:77-142 | The whole inline delivery is exactly the turns of the plan, each from where the one before has led, and listeners are called exactly as those turns say; the queue is empty afterwards. |
| FlushRuntimes.FlushRuntime.FinishDelivery | src/notification/index.ts:29-33 | The end of a flush: the scheduler is asked for another exactly if the flush was its own and stores are pending. |
| FlushRuntimes.FlushRuntime.FlushRegistry | src/notification/index.ts:14-36 | A flush delivered inline, asked for inline or by the scheduler: the plan for the pending stores and priorities, exactly its turns and calls, one finish; where listeners ask for nothing, each listener of a pending leaf has been called with the leaf's value. |
| FlushRuntimes.FlushRuntime.FlushPending | src/notification/index.ts:44-56 | Throws exactly when it passes the pass limit; makes every plan with the given priorities; otherwise ends with nothing pending and every computed fresh that is neither misled, stranded nor withheld, whatever listeners ask for; with silent listeners and nobody misled or stranded, in at most longest chain plus one passes and converged on the leaves; does nothing inside a batch. |
| FlushRuntimes.FlushRuntime.RecomputeHydrated | src/core/store-hydrate-impl.ts:390-404 | One computed of the pass: a throw, a promise, the last output again, and a refused output leave its store alone; it is a protocol run. |
| FlushRuntimes.FlushRuntime.RecomputeInOrder | src/core/store-hydrate-impl.ts:387-406 | Recomputing along the order gives each computed its evaluation on the state before, where an output that is not written leaves the store's value in its place. |
| FlushRuntimes.FlushRuntime.RecomputeAfterHydration | src/core/store-hydrate-impl.ts:385-407 | The same for every affected computed and any snapshot, computeds' own stores included; one that depends on nothing stuck ends with its plain evaluation; all other stores keep their values; and the pass is a protocol run. |
| FlushRuntimes.FlushRuntime.WriteEntry | src/core/store-hydrate-impl.ts:334-383 | One store of a snapshot is written if it exists and created otherwise, unless it refuses. |
| HydrationRecompute.HydratedStores | src/core/store-hydrate-impl.ts:333-384 | The hydrated stores hold every value taken, and are as before elsewhere. |
| FlushRuntimes.FlushRuntime.WriteSnapshot | src/core/store-hydrate-impl.ts:333-384 | For a snapshot that names no store twice: each store that takes its value holds it, no other store moves, and the sources of the pass are exactly the names taken, in order; in a protocol run that keeps the invariant. |
| FlushRuntimes.FlushRuntime.Hydrate | src/core/store-hydrate-impl.ts:218-407 | Inside a batch it only fails the batch, and an untrusted snapshot does nothing. Else each store that takes its value holds it, unless it is a computed's that is recomputed; each affected computed that depends on nothing stuck holds its evaluation on the stores as hydrated; all others are as they were; in a protocol run that keeps the invariant, so that consistency at rest holds with it. |
| HydrationRecompute.RecomputeIsEval | src/core/store-hydrate-impl.ts:390-404 | Once its dependencies are evaluated, running a compute function on the stores gives its evaluation. |
| HydrationRecompute.RightUnlessStuck | src/core/store-hydrate-impl.ts:397-402 | A computed whose dependencies come out right does so itself exactly if its output is not one that is not written while its store holds something else. |
| HydrationRecompute.RightUnlessSomeStuck | src/core/store-hydrate-impl.ts:387-406 | Where nothing that a name depends on is stuck, the pass gives its plain evaluation. |
| HydrationRecompute.HydratedValueStands | src/core/store-hydrate-impl.ts:398-399 | Concrete input: a hydrated value that differs from the last output, which the function yields again, is left standing. |
| ChunkedDelivery.DeliveryRun.constructor | src/notification/delivery.ts:156-189 | Both queues are built before anyone is called, one task per plan store with subscribers; the slices owed are the sum over stores. |
| ChunkedDelivery.DeliveryRun.BuildQueue | src/notification/delivery.ts:156-186 | The stores of one class that have a subscriber, in plan order: those in the priority set, or those outside it; each with value, version and subscribers at that time. |
| ChunkedDelivery.DeliveryRun.Perform | src/core/store-write-shared.ts:117-146 | What others do in between: writes land in stores that there are, each counted in the version and making its store pending; subscriptions and unsubscriptions change the lists. |
| ChunkedDelivery.DeliveryRun.RefreshSubscribers | src/notification/delivery.ts:209-217 | Adds exactly the live subscribers that are missing, at the end of the list. |
| ChunkedDelivery.DeliveryRun.ServeNext | src/notification/delivery.ts:240-286 | One turn: nobody is called twice, the snapshot is the store's one snapshot, and a version change ends the slice with the store pending. |
| ChunkedDelivery.DeliveryRun.DeliverSlice | src/notification/delivery.ts:239-287 | A slice: bookkeeping kept whatever the calls do, one waiting subscriber less for each call made and somebody called if anybody waits; it reports a version change exactly when the version moved, if no call raised a mutation error; uncut, it takes exactly one slice off the work owed. |
| ChunkedDelivery.DeliveryRun.FinishTurn | src/notification/delivery.ts:301-316 | Back into the queue if and only if somebody is unnotified after the refresh; otherwise every live subscriber has been given the snapshot. |
| ChunkedDelivery.DeliveryRun.ServeHead | src/notification/delivery.ts:197-322 | A whole turn of the head task keeps the delivery invariant and pays off one owed call more than subscriptions to stores with a task were made meanwhile; a store is recorded served only if every live subscriber has its snapshot and, unless mutation errors hid a check, its version has not moved since. |
| ChunkedDelivery.DeliveryRun.ProcessNext | src/notification/delivery.ts:192-323 | A chunk with the done calls it triggers keeps the invariant and whatever is watched of the run: slices done plus slices owed when undisturbed, or a store outgrown. |
| ChunkedDelivery.DeliveryRun.QueueDone | src/notification/delivery.ts:328-332 | The end of the priority queue starts the regular one at once, the end of that fires done once. |
| ChunkedDelivery.DeliveryRun.RunDisturbed | src/notification/delivery.ts:191-332 | The invariant holds over every run with any writes, subscriptions and unsubscriptions between chunks and inside calls; it has at most one chunk more than calls owed at its start and subscriptions made in it to stores that still had a task. |
| ChunkedDelivery.DeliveryRun.RunUndisturbed | src/notification/delivery.ts:191-332 | With no writes and no new subscribers the run ends after exactly the owed number of slices, every plan store served, pending untouched. |
| ChunkedDelivery.DeliveryRun.RunToEnd | src/notification/delivery.ts:191-332 | Whatever is written, unsubscribed or raised between chunks and inside calls, a run in which at most so many subscriptions are made to the stores with a task at its start ends, in at most the calls owed plus that number plus one chunks, and has called done once. |
| ChunkedDelivery.DeliveryRun.RunOutgrown | src/notification/delivery.ts:289-305 | A store that gains a subscriber for each one called is never served: after any number of chunks done has not been called. |
| ChunkedDelivery.NewcomersNeverDone | src/notification/delivery.ts:289-305 | Concrete input of that kind, from the start of the delivery. |
| ChunkedDelivery.DeliveryRun.PriorityComesFirst | src/notification/delivery.ts:328-332 | In the priority phase only stores of the given priority set have been called; after it every store of the plan in that set that had a subscriber at the start has been served or is pending again. |
| ChunkedDelivery.DeliveryRun.Outcome | src/notification/delivery.ts:191-332 | At the end done has fired once; every store of the plan that had subscribers is pending again or has given its value at the start to all of those and to all who were subscribed when it was done with; no call was made twice or with another value. |
| ChunkedTasks.DebtAfterCalls | src/notification/delivery.ts:209-217 | Calls owe at most one more call for each subscription they make to a store that has a task, to all tasks together. |
| ChunkedTasks.NoJoinsAtAll | src/notification/delivery.ts:191-332 | Where nobody subscribes, the bound on subscriptions is zero. |
| ChunkedTasks.SlicesRoundUp | src/notification/delivery.ts:240-240 | The slices of k subscribers are k divided by the slice size, rounded up. |
| ChunkedTasks.WorkIsOwed | src/notification/delivery.ts:188-189 | Splitting the plan into two queues does not change the total. |
| Transactions.BatchRefinesDirect | src/core/store-transaction.ts:226-274 | A successful batch leaves every value, update count and patch list that the same writes made one by one leave. |
| Transactions.OpsCount | src/core/store-write-shared.ts:58-64 | Made one by one, writes leave each store with its old update count and one for each accepted write to it that the equality shortcut does not drop, modulo 2^53. |
| Transactions.BatchCountsWrites | src/core/store-write-shared.ts:117-146 | So does a batch that goes through, the writes counted from its body. |
| Transactions.BodySucceedsIffAccepted | src/core/store-set-impl.ts:112-149 | A batch body goes unmarked if and only if each of the same writes made one by one would be accepted, or refused by its store's failed initialiser or for an empty name, and no inner body fails: staged values stand in exactly for committed ones. |
| Transactions.OpsSucceedIffAccepted | src/core/store-transaction.ts:196-224 | The same from any point in the body. |
| Transactions.CommitsPendOnce | src/core/store-notify.ts:39-44 | After a commit each touched store is pending, none twice. |
| Transactions.FailureIsUndone | src/core/store-transaction.ts:131-167 | Whatever the body or the commit steps and their hooks did, a batch that fails leaves names, values, counters of surviving entries, pending and last patches as before. |
| Transactions.ThrowingBodyFails | src/core/store-transaction.ts:226-234 | A throwing body fails the batch unless nothing failed before and the thrown value is falsy. |
| Transactions.BatchSucceedsIff | src/core/store-transaction.ts:226-274 | An outermost batch without commit hooks goes through if and only if every write would be accepted on its own or refused by its store's failed initialiser or for an empty name, no inner body fails, and its own body returns no promise and throws nothing truthy. |
| Transactions.FalsyThrowCommits | src/core/store-transaction.ts:226-274 | Concretely: one replace that changes a store, then a falsy throw, and the replace is committed. |
| Transactions.FailedInitialiserCommits | src/core/store-set-impl.ts:127-127 | Concretely: one replace, then a set that a failed initialiser refuses, and the replace is committed. |
| Transactions.EmptyNameCommits | src/core/store-replace-impl.ts:44-44 | Concretely: a replace of the empty name, then one that changes a store, and the latter is committed. |
| Transactions.OpsSimulate | src/core/store-write-shared.ts:190-203 | Staging simulates committing: replaying the staged steps gives the directly written state, write by write. |
| Transactions.FailureStays | src/core/store-transaction.ts:196-200 | Once failed, a batch stays failed with its first error. |
| Transactions.ReadySimulates | src/core/store-lifecycle/validation.ts:359-392 | Running a pending initialiser inside a batch simulates running it outside, staged value and initialiser included. |
| Transactions.LostInitialisers | src/core/store-transaction.ts:131-167 | A commit that fails has lost exactly the initialisers of the stores that its steps up to the failing one initialised. |
| Transactions.LazyStoreAfterRollback | src/core/store-transaction.ts:131-167 | After such a rollback a lazy store reads as its initialiser gives, unless the failed commit had run it; then as undefined. |
| Transactions.RollbackForgetsInitialiser | src/core/store-transaction.ts:131-167 | Concretely: a body that touches a lazy store and replaces two others, where the hook of the first leaves the second without its meta entry, is rolled back, and the lazy store has lost its value. |
| TransactionRuntimes.StoreRegistry.BeginTransaction | src/core/store-transaction.ts:169-187 | The outermost begin starts from an empty staging area, an inner one keeps it. |
| TransactionRuntimes.StoreRegistry.CommitStoreUpdate | src/core/store-write-shared.ts:117-146 | One commit: value, wrapping update count, correlation, hooks, pending, in the specified order. |
| TransactionRuntimes.StoreRegistry.RestoreSnapshot | src/core/store-transaction.ts:131-167 | Restoring equals the specification of the rollback. |
| TransactionRuntimes.StoreRegistry.CommitAll | src/core/store-transaction.ts:238-261 | Runs the steps in order and, when one throws or marks failure, restores the captured state. |
| TransactionRuntimes.StoreRegistry.EndTransaction | src/core/store-transaction.ts:226-274 | Inner ends commit nothing; the outermost end commits or rolls back. |
| TransactionRuntimes.StoreRegistry.StageOrCommit | src/core/store-write-shared.ts:190-213 | Inside a batch a write only stages; outside it commits at once. |
| TransactionRuntimes.StoreRegistry.MaterializeInitial | src/core/store-lifecycle/validation.ts:359-392 | The first use of a lazy store runs its initialiser: staged inside a batch, stored outside, refused if it fails. |
| TransactionRuntimes.StoreRegistry.SetStore | src/core/store-set-impl.ts:112-327 | Initialised first, on the staged or committed value; a failed initialiser refuses without marking the batch, every other rejection marks it, a shallow-equal result writes nothing; the result and, without hooks, the new state outside a batch are those of the direct write. |
| TransactionRuntimes.StoreRegistry.ReplaceStore | src/core/store-replace-impl.ts:39-129 | The same for a whole-value replacement, which has no equality shortcut; an empty name is refused unmarked, undefined with a mark. |
| TransactionRuntimes.StoreRegistry.RunBody | src/core/store-notify.ts:76-83 | Committed state does not change while a batch body runs, inner batches included. |
| TransactionRuntimes.StoreRegistry.SetStoreBatch | src/core/store-notify.ts:48-98 | Nested: stages only. Outermost: commits everything or, on any failure, is rolled back; depth counters return to where they were and a flush is scheduled exactly when stores are pending. |
| PatchPaths.KeyDecidesIndex | src/psr/index.ts:252-260 | A segment is an array index exactly when its property key is a canonical decimal, and two segments with the same key name the same index. |
| PatchPaths.DecimalOfNumber | src/psr/index.ts:252-260 | Reading a canonical decimal and writing it back gives the same text. |
| PatchPaths.MergeOutcome | src/psr/index.ts:329-349 | A merge succeeds if and only if its path is not empty and it merges a record into a record that is there; else the error is that of reading the path, or of the shape. |
| PatchPaths.MergeReads | src/psr/index.ts:342-346 | After a merge each field of the patch is read at the path, and every other field as before. |
| PatchPaths.DeleteOutcome | src/psr/index.ts:351-372 | A deletion succeeds if and only if there is something to read at its path, which is not empty. |
| PatchPaths.DeleteFromRecord | src/psr/index.ts:364-370 | After a deletion in a record the key is gone and the others are as before. |
| PatchPaths.DeleteFromList | src/psr/index.ts:356-362 | After a deletion in an array later elements are read one place earlier. |
| PatchPaths.InsertOutcome | src/psr/index.ts:374-391 | An insertion succeeds if and only if its path leads to a place in an array or just after its end. |
| PatchPaths.InsertReads | src/psr/index.ts:386-389 | After an insertion the value is read at its index, later elements one place further. |
| PatchPaths.UpdateFrame | src/psr/index.ts:299-327 | A deletion or insertion leaves what is read at every path that is incomparable with its container's. |
| PatchPaths.InsertThenDelete | src/psr/index.ts:351-391 | Insert then delete at one path restores the value. |
| PatchPaths.DeleteThenInsert | src/psr/index.ts:351-391 | Delete then re-insert restores the value exactly when the container is an array; in an object the insert is refused. |
| PatchPaths.MergeFrame | src/psr/index.ts:329-349 | A merge leaves what every incomparable path reads unchanged, its error included. |
| PatchPaths.MergesCommute | src/psr/index.ts:329-349 | Merges at incomparable paths commute, including whether and why the second fails. |
| PatchPaths.ReplaceThenReplaceBack | src/psr/index.ts:262-297 | A replaced child reads back, and replacing it by the old child restores the value. |
| PatchPaths.ReplacesCommute | src/psr/index.ts:280-297 | Replacing children with different keys commutes. |
| PatchBatches.NormalizeAll | src/psr/index.ts:574-581 | Either every patch is well formed, and is kept field by field, or the index of the first malformed one. |
| PatchBatches.MergePatchReads | src/psr/index.ts:466-478 | An accepted merge patch, at the root or below: its fields are read back from its store, the others as before. |
| PatchBatches.RootMergeOutcome | src/core/store-set-impl.ts:112-327 | A merge at the root is accepted for a record or null into a record, where null changes nothing, for a string or list that the path write takes, and for nothing else. |
| PatchBatches.OtherPatches | src/psr/index.ts:453-492 | An accepted set at the root leaves its value; deletions and insertions are those at the path. |
| PatchBatches.KeysInOrder | src/psr/index.ts:462-462 | A set below the root is made at the keys of its segments, in order. |
| PatchBatches.ApplySet | src/psr/index.ts:453-493 | A set patch inside a batch initialises its store as any write does and stages what the specification says. |
| PatchBatches.ApplyNormalized | src/psr/index.ts:453-493 | One patch inside a batch: accepted exactly when the specification accepts it on what earlier ones staged; committed state untouched. |
| PatchBatches.ApplyAll | src/psr/index.ts:593-608 | The loop is the left fold of the patches over what is staged, stopping at the first rejection. |
| PatchBatches.ApplyStorePatchesAtomic | src/psr/index.ts:568-626 | Outside a batch: a malformed patch rejects the list before anything is applied; otherwise the stores become the left fold of the patches, or nothing changes and the first rejected patch is reported by its id; a commit failure is rolled back. |
| EditDistance.Levenshtein | src/internals/diagnostics.ts:145-164 | The two-row loop computes the recursive table's corner. |
| EditDistance.FillRow | src/internals/diagnostics.ts:153-162 | One pass turns the row of one prefix into the row of the next. |
| EditDistance.EveryNeighbourBounds | src/internals/diagnostics.ts:156-159 | Skipping the minimum on a match loses nothing: the cell is the least of its three neighbours' bounds. |
| EditDistance.LeastEdits | src/internals/diagnostics.ts:145-164 | The distance is the least length of a script of single-unit insertions, deletions and substitutions from one string to the other. |
| EditDistance.NoScriptIsShorter | src/internals/diagnostics.ts:145-164 | No edit script, with edits at any positions in any order, is shorter. |
| EditDistance.ScriptWorks | src/internals/diagnostics.ts:145-164 | The script read off the table works and has that length. |
| EditDistance.EditedMovesByOne | src/internals/diagnostics.ts:156-159 | One edit anywhere moves the distance by one at most. |
| EditDistance.Triangle | src/internals/diagnostics.ts:145-164 | The triangle inequality, and distance zero only between equal strings. |
| EditDistance.AtLeastLengthDifference | src/internals/diagnostics.ts:140-143 | The distance is at least the difference in length. |
| EditDistance.PrefilterKeepsVerdict | src/internals/diagnostics.ts:138-173 | The prefilter changes the verdict "at most two" for no pair of strings of up to 128 units. |
| SizeEstimate.EstimateUtf8LengthBounded | src/core/store-hydrate-impl.ts:61-85 | The smaller of the limit and the number of UTF-8 octets (section 3 of RFC 3629), a lone surrogate counted as U+FFFD. |
| SizeEstimate.EncodingReadsBack | src/core/store-hydrate-impl.ts:61-85 | The reference encoding decodes to the same code points. |
| SizeEstimate.OctetsDecode | src/core/store-hydrate-impl.ts:65-79 | One code point's octets have the length their first octet tells and decode to it. |
| SizeEstimate.EstimateRoughJsonBytesBounded | src/core/store-hydrate-impl.ts:87-174 | For plain trees and any limit, the smaller of the limit and the length of the text by the grammar of RFC 8259, strings unescaped; but under a limit of 1, two exactly for an empty array or an object. |
| SizeEstimate.EstimateWithinBounds | src/core/store-hydrate-impl.ts:87-174 | The limit is exceeded exactly in that case, and the true size is never overstated. |
| SizeEstimate.LimitOfOneOverrun | src/core/store-hydrate-impl.ts:135-170 | Concrete inputs of the overrun: the empty array, the empty object, an object with one property. |
| SizeEstimate.EstimateItems | src/core/store-hydrate-impl.ts:135-150 | The same for the array loop with its early exits. |
| SizeEstimate.EstimateRecord | src/core/store-hydrate-impl.ts:152-170 | The same for the property loop, absent values skipped. |
| SizeEstimate.SizeOfItems | src/core/store-hydrate-impl.ts:135-150 | The written array takes its brackets, a comma between neighbours, and its items. |
| SizeEstimate.SizeOfRecord | src/core/store-hydrate-impl.ts:152-170 | The written object takes its brackets, a comma between neighbours, and for each property present its quoted key, a colon and its value. |
| RateLimit.RateRegistry.RegisterRateHit | src/async/rate.ts:47-64 | The verdict and the new window are those of the specification. |
| RateLimit.RateRegistry.Prune | src/async/rate.ts:21-31 | At most once per window length, removes exactly the windows older than that. |
| RateLimit.PrunesAreInvisible | src/async/rate.ts:21-64 | From states alike for the future, a run with prunes and the same hits without them give the same verdicts. |
| RateLimit.PrunesChangeNoVerdict | src/async/rate.ts:21-64 | For non-decreasing timestamps, prunes inserted anywhere change no verdict. |
| RateLimit.AdmittedAtMostLeft | src/async/rate.ts:47-64 | From any state, the hits still admitted in an interval are bounded by what its window leaves. |
| RateLimit.AtMostTwoWindows | src/async/rate.ts:18-64 | Over any run, a slot admits at most 2 * RATE_MAX hits within any closed interval of RATE_WINDOW_MS. |
| RateLimit.LimitedOnlyWhenFull | src/async/rate.ts:53-58 | A hit is limited only if RATE_MAX hits on its slot were admitted within the RATE_WINDOW_MS before it. |
| AsyncSlotIndex.InvertedIsExact | src/async/cache.ts:105-151 | The inverse map is what exact inverses with no empty bucket means. |
| AsyncSlotIndex.AsyncSlots.RemoveTrackedAsyncSlot | src/async/cache.ts:105-113 | Takes the slot from its owner and from the named store; the two indexes stay exact inverses exactly if no other store owned it. |
| AsyncSlotIndex.AsyncSlots.TrackAsyncSlot | src/async/cache.ts:130-144 | Moves the slot to its new owner in both indexes. |
| AsyncSlotIndex.AsyncSlots.ReleaseAsyncSlotIfOrphaned | src/async/cache.ts:146-151 | Stops tracking the slot exactly when nothing refers to it. |
| AsyncSlotIndex.AsyncSlots.PruneAsyncCache | src/async/cache.ts:377-412 | All entries go whose expiry has come; of the live ones at most 100 stay, none with an earlier timestamp than one evicted; a removed slot stays tracked exactly when something still refers to it; slots of other stores are left alone, but for a base slot; nothing else changes. |
| AsyncSlotIndex.AsyncSlots.Looked | src/async/cache.ts:153-199 | Which cached slots a prune looks at: those the store owns; where it owns none, unowned ones of its form, and its base slot whoever owns that. |
| AsyncSlotIndex.AsyncSlots.DropExpired | src/async/cache.ts:385-396 | The first loop removes exactly the expired entries and lists each live one once. |
| AsyncSlotIndex.FrontGone | src/async/cache.ts:403-410 | Dropping the front of the list sorted by age keeps the newest. |
| AsyncSlotIndex.SortedByAge | src/async/cache.ts:403-403 | The sort is by timestamp and loses or repeats nothing. |

## Left out

- FlushConsistency.StepKeeps: flush ids and versions do not wrap here (the source wraps the flush id at 2^32 and the update count at the largest safe integer); the wrap of the update count is modelled in the transaction part.
- FlushConsistency.EndKeeps: stores are neither deleted nor created by hooks while a batch commits; a commit that fails counts as a batch that fails as a whole, which `Transactions.FailureIsUndone` justifies.
- FlushRuntimes.FlushRuntime.CreateLeafStore: lazy stores are not created here; their first use is modelled in the transaction part.
- FlushConvergence.ConvergenceBound: outputs are compared by value, as primitive outputs are; object outputs compare by identity in the source and never settle in this way.
- FlushRuntimes.FlushRuntime.FlushPending: no microtask flush is queued at the same time.
- FlushRuntimes.FlushRuntime.Hydrate: trust checks are one flag, and invalid store names are among the refused ones.
- ChunkedDelivery.DeliveryRun.constructor: the plan names no store twice, which it can only where the configured priority list does.
- ChunkedDelivery.DeliveryRun.ProcessNext: its subscribers are listeners that write, subscribe and unsubscribe; that its chunks are runs of the protocol, whose steps include refreshing and dropping tasks, is not proved.
- Transactions.BatchRefinesDirect: commit hooks do nothing, timestamps are not compared, and hooks that open another batch during a commit are not modelled.
- PatchBatches.ApplyStorePatchesAtomic: set patches go through path parsing and path writing in files that are not part of this model; they are an arbitrary partial function here. Numeric segments of 1e21 and more are not modelled.
- ChunkedDelivery.DeliveryRun.DeliverSlice: the "throw" and "auto-clone" snapshot safety modes and fractional chunk sizes are not modelled; the default mode, which does not count a mutation error against the slice, is.
- SizeEstimate.EstimateRoughJsonBytesBounded: plain JSON trees only; dates, buffers, maps, sets, accessors, big integers, sparse arrays and cyclic values are not modelled, and strings are counted unescaped as the source counts them.
- RateLimit.RateRegistry.RegisterRateHit: does not track the slot in the slot index, which is modelled on its own.
- RateLimit.RateRegistry.Prune: does not release the pruned slots in the slot index, which is modelled on its own.
- AsyncSlotIndex.AsyncSlots.PruneAsyncCache: the order in which a set is visited, which only decides ties of equal timestamps, is left open.
- Store deletion during a flush, and several registries sharing the module-wide order cache.
- Snapshot modes, cloning, freezing and the snapshot cache: a snapshot is the value.
- `clearAsyncMeta` for a base slot owned by another store.
- Runtime graph descriptors, reachability of node ids and the timing contract; the `stale` flag of computeds.
- Post-hydration consistency, sync channels, persistence, React hooks, fetch, devtools, server-side registries, logging, metrics timings and configuration plumbing.
- The substring tests of store-name suggestions: only the edit distance and its prefilter are modelled.
