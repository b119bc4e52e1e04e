# Verification of the repair agent's protocols and searches

A Dafny 4.11 model of the parts of the repository whose correctness depends on every interleaving, every run or
every graph, with proofs that hold for all inputs. `dafny verify dfyconfig.toml` checks it.

The source's own shapes are kept. What it does by updating objects or lists is a class or a loop here, and each such
method is proved equal to a function of its inputs and its old state, or to the property itself; the theorems are
about those functions. What the source computes by expressions is a function here.

| files | what they model |
|---|---|
| `ExecutionProtocol`, `ExecutionStore`, `StoreRuns` | claims and commits of sandbox executions, and every run of a store |
| `RedisExecutionStore` | the two Redis scripts, their refinement of the store, and where they part from the dictionaries |
| `ExecutionPlane`, `ExecutionClient` | the request handler, every interleaving of handlers, workers, crashes and clients; the retry loop |
| `CheckpointStore`, `CheckpointRefinement` | graph checkpoints kept as versioned deltas, and the store of full snapshots they agree with |
| `ImportGraph`, `ImportSearch` | the bounded import search, and its exactness |
| `CallGraph` | the bounded search of possible calls |
| `Verification`, `LocalLoop`, `FixGraph` | the verdict rules, the executor of local actions, the repair graph with its pauses |
| `RepairRuns`, `RepairPauses` | what the budgets allow over whole runs of that graph, and where those pause and go on, resumed ones included |
| `McpCatalog`, `McpRouter` | tool discovery, the plan filter, and the two ways a planned call is executed |

## What the proofs say about the code

These are results about the code as it is, including places where a promise holds only under a condition.

* **One response per execution.** With the dictionary store, all successful answers for an execution, fresh or cached,
  in any interleaving, are one response that was committed first (`OneResponsePerExecution`). Redis drops rows after
  the retention, so there two different answers come from commits further apart than it
  (`AnswersDifferOnlyAfterRetention`).
* **Answers.** Every answer of the plane to a request that is let in is exact, from what happened to its execution and
  its assertion before (`AnswersIff`): it is asked to wait while the execution is running for this very request, and
  refused for good when the id is bound to another request or the assertion is used up. The client posts again in the
  first case only (`RetriedIffBusy`).
* **Fencing.** `CommitsIff` says exactly which completions commit, with and without a retention. A superseded worker
  never commits in the dictionary store, and in Redis only more than the retention after it was granted
  (`StaleCommitNeedsEviction`, `OnlyLatestWorkerCommits`); there it does happen, whatever the retention, because a
  dropped row numbers attempts from 1 again (`StaleTicketAfterEviction`).
* **One run per assertion.** The replay record lives until the assertion's `exp`, but verification accepts an assertion
  for five seconds longer (`backend/app/sandbox/workload_identity.py:77,95`). A second run can only be claimed after
  `exp` (`OneRunPerAssertionByExpiry`), and a third, with a retention of ten seconds or more, only more than six seconds
  after a verification (`AtMostTwoRunsPerAssertion`). A grant keeps its execution for its lease or until its row may
  have been dropped, whichever is shorter. `RunTwiceIff` gives the exact settings, for every retention: when handlers
  claim within `d` seconds of verifying, one assertion can start two runs if and only if a grant keeps the execution
  for at most the assertion's lifetime plus 10 + `d` seconds. With a lifetime of 60 and a grace of 60, a call whose
  timeout is over 10 + `d` seconds starts at most one backend run, however often the client posts it (`CallOutcome`).
* **Lease coverage.** Start-up validation says the retention covers the longest lease. It adds the configured grace,
  while the handler adds at least ten seconds. A live lease can be displaced, its row dropped and the execution granted
  again, if and only if some request that is let in has a lease over the retention plus one second
  (`LeasesOverlapIff`, with the interleaving in `LeaseDisplaced`). Of the settings that pass validation these are
  exactly those with a retention under 3609 seconds, all of which have a grace under nine (`ValidatedOverlapIff`).
* **Exact import graph.** A result is called truncated exactly when the graph asked for has more nodes or edges than
  the caps; otherwise it holds precisely the files within the given number of hops and every relation of the inner ones.
* **Call graph.** A result holds the relations of a set of expanded symbols and no others, all of them less than the
  depth away, and is called truncated exactly when these relations are over a cap. Symbols are remembered in lower case, so the set is the whole neighbourhood if and only if no two symbols
  of the neighbourhood differ only in case (`ExpandedWithinDepthIff`); otherwise calls can be missing from a result
  that is not marked truncated, as they are from every search of a small index (`CaseHidesCalls`).
* **Checkpoints.** `RestoredIff` and `OthersKeptIff` say exactly when a saved checkpoint comes back as given and when
  saving leaves another one alone. A first batch of regular pending writes comes back whole and in order
  (`PendingIsTheBatch`), and a batch can be repeated without effect, whatever it writes. Listing in pages misses nothing
  and repeats nothing (`PagesConcatenate`).
* **Verdicts.** `StatusIff` and `ReasonNamesThePhase` give each status and reason from the first phase that decides.
* **Pauses.** A run is over and waiting for an approval, or for a reconciliation, exactly when a visit asked for one,
  another visit followed and nobody has decided since (`WaitsIff`); meanwhile nothing is patched, called or planned
  (`PausesWhenAsked`). However often it is resumed it completes no more rounds than it may (`RoundsBounded`), and a run
  that ends without a patch under test says that none was applied (`EndedByPlannerFails`).
* **Repair runs.** A verified verdict, on any run with any pauses, rests on results of the last applied patch and a
  baseline taken before any patch. Every uninterrupted run ends within a bound in the planner budget and MCP rounds.
* **Action loop.** How many results of the executor can return to the planner in one run, resumed or not, is exact:
  with T tool calls, N steps without progress, P planner calls and I iterations, `n` of them can if and only if some
  `q` under max(1, I) reflections satisfy n + q <= P and n <= (T + 1) * N - 1 + q * (N - 1) (`PlanRoutesPossibleIff`):
  a patch resets the steps without progress, so each reflection on a failed one renews all but one of them.
  `MostIsReachedIff` gives the largest number and the planner budget it takes. No run makes a tool call twice if and
  only if T or P is at most one more than the history cap (`NoRepeatedDispatchIff`). Every call a run makes is an
  allowed test command, a read within the limit or a query (`CallsAreLegal`), and the planner is heard only within all
  of its budgets (`PlannerAnswerIff`).
* **Tool plans.** The filter makes or asks for precisely the first distinct eligible calls that fit the budget.
  An approval is resolved against a catalog discovered anew. The approved request goes to the server and tool it was
  planned for or nowhere, and it goes there exactly when its name is still listed, its tool still needs approval, and
  its arguments meet the first schema listed (`ApprovalNeverDiverts`). Planning uses the last entry of a repeated
  name, so a request can be refused under a schema it was not planned with (`RepeatedToolIsRefused`).

## Model

| member | source | states |
|---|---|---|
| ExecutionStore.MemoryExecutionStateStore.Claim | backend/app/sandbox/execution_store.py:54-92 | one atomic claim, its answer and whole new state, with the specification's retention switched off |
| ExecutionStore.MemoryExecutionStateStore.Complete | backend/app/sandbox/execution_store.py:94-115 | one atomic commit, its answer and whole new state |
| StoreRuns.CommittedRowHolds | backend/app/sandbox/execution_store.py:72-75 | a committed row keeps its response, hash and attempt for as long as it is retained |
| StoreRuns.AnsweredFromCommit | backend/app/sandbox/execution_store.py:69-75 | while retained, every later claim gets that response or a conflict, and every later commit is refused |
| StoreRuns.CommitsFarApart | backend/app/sandbox/execution_store.py:103-115 | an id is committed twice never in the memory store, otherwise more than the retention apart |
| StoreRuns.CommitsFarApartWithin | backend/app/sandbox/execution_store.py:64-65 | the same, less the amount by which time stamps may come out of order |
| StoreRuns.CachedWasCommitted | backend/app/sandbox/execution_store.py:72-75 | a cached answer is a response committed earlier for that id and request |
| StoreRuns.AcquisitionsApart | backend/app/sandbox/execution_store.py:82-92 | two acquisitions of an id are as far apart as the first lease, or as the retention and one second when that is shorter, less the disorder of stamps |
| StoreRuns.LeasesDisjoint | backend/app/sandbox/execution_store.py:82-92 | leases granted for one id never overlap when none is longer than the retention and one second |
| StoreRuns.LeasesDisjointWithin | backend/app/sandbox/execution_store.py:64-92 | with stamps out of order they overlap by no more than that |
| StoreRuns.RowIsLastAcquisition | backend/app/sandbox/execution_store.py:85-92 | the row always carries the owner, hash, attempt and lease of the last acquisition |
| StoreRuns.Fenced | backend/app/sandbox/execution_store.py:103-115 | a commit belongs to the last acquisition, strictly inside its lease |
| StoreRuns.CommitsIff | backend/app/sandbox/execution_store.py:94-115 | exactly which completions commit: the ticket of the last acquisition, nothing committed since, lease live, row retained |
| StoreRuns.AttemptsAreConsecutive | backend/app/sandbox/execution_store.py:84-92 | attempts of an id are 1, 2, 3, ... in the memory store |
| StoreRuns.SupersededNeverCommits | backend/app/sandbox/execution_store.py:103-115 | a worker superseded by a later acquisition never commits in the memory store |
| StoreRuns.StaleCommitNeedsEviction | backend/app/sandbox/execution_store.py:140-153 | with a retention it commits only more than the retention after it was granted |
| StoreRuns.AttemptsRestartOnlyAfterEviction | backend/app/sandbox/execution_store.py:140-142 | numbering goes on from the previous acquisition, or restarts at 1 once its row was dropped |
| StoreRuns.NoSecondAcquisition | backend/app/sandbox/execution_store.py:64-81 | an assertion acquires a second time, for any id, only after its replay record expired |
| StoreRuns.NoSecondAcquisitionWithin | backend/app/sandbox/execution_store.py:64-81 | the same, less the amount by which time stamps may come out of order |
| StoreRuns.ClaimAnswersIff | backend/app/sandbox/execution_store.py:64-92 | exactly which claims are answered as bound elsewhere, cached, in progress or replayed, from the acquisitions, commits and claims before them |
| StoreRuns.AcquiresIff | backend/app/sandbox/execution_store.py:64-92 | exactly which claims acquire, from the history of claims and commits alone |
| StoreRuns.ReacquiresIff | backend/app/sandbox/execution_store.py:64-92 | exactly when a retry of a granted request acquires again in a run: no use of its assertion in force, and the row dropped or its lease over with nothing committed |
| RedisExecutionStore.RedisExecutionStateStore.Claim | backend/app/sandbox/execution_store.py:121-144 | the claim script command by command, answer and whole new keys |
| RedisExecutionStore.RedisExecutionStateStore.WriteGrant | backend/app/sandbox/execution_store.py:140-142 | the fields an acquisition increments, sets and expires, and no other hash |
| RedisExecutionStore.RedisExecutionStateStore.Complete | backend/app/sandbox/execution_store.py:146-155 | the commit script command by command, answer and whole new keys |
| RedisExecutionStore.ClaimScriptRefines | backend/app/sandbox/execution_store.py:121-144 | the claim script answers as the specification and keeps hash fields and rows in step |
| RedisExecutionStore.CompleteScriptRefines | backend/app/sandbox/execution_store.py:146-155 | so does the commit script |
| RedisExecutionStore.ScriptsRefineRun | backend/app/sandbox/execution_store.py:169-219 | any calls on empty keys are answered as in a run of the specification with that retention |
| RedisExecutionStore.RedisAgreesWithMemory | backend/app/sandbox/execution_store.py:48-155 | scripts and dictionaries answer any call sequence alike while no call finds its row dropped |
| RedisExecutionStore.StoresAgree | backend/app/sandbox/execution_store.py:48-155 | such sequences also leave the same rows and replay records |
| RedisExecutionStore.ClaimsAgreeIff | backend/app/sandbox/execution_store.py:66-92 | exactly when a single claim gets the same answer with and without a retention |
| RedisExecutionStore.StaleTicketAfterEviction | backend/app/sandbox/execution_store.py:140-154 | for every retention and request, a run in which an old ticket commits after its row was dropped and granted again |
| ExecutionPlane.ExecutionPlane.Admit | backend/app/sandbox/execution_plane.py:82-122 | refusals leave the store alone; an admitted request makes one claim, and is answered as its row, its lease and the records of its assertion say |
| ExecutionPlane.AdmittedIsDue | backend/app/sandbox/execution_plane.py:110-122 | the five answers, each exactly, from the store the claim finds |
| ExecutionPlane.AnswersIff | backend/app/sandbox/execution_plane.py:108-122 | in every interleaving, exactly which requests are told to wait, refused, answered or granted, from what happened before |
| ExecutionPlane.WorkerAnswersIff | backend/app/sandbox/execution_plane.py:187-199 | a worker returns its result exactly when it was committed, and else sends no request to retry |
| ExecutionPlane.OnlyAllowedReachTheStore | backend/app/sandbox/execution_plane.py:80-96 | no store operation for an image, command or timeout that is not allowed, or under an assertion for another request |
| ExecutionPlane.ClaimsLastLongEnough | backend/app/sandbox/execution_plane.py:97-107 | a claim records its assertion as long as it is valid, and leases for longer than the request may run |
| ExecutionPlane.ExecutionPlane.Finish | backend/app/sandbox/execution_plane.py:187-199 | the result is committed before it is returned, or is not returned |
| ExecutionPlane.CommittedBeforeReply | backend/app/sandbox/execution_plane.py:110-112 | in every interleaving each successful reply was committed for that execution no later than it was sent |
| ExecutionPlane.OneResponsePerExecution | backend/app/sandbox/execution_plane.py:97-199 | all successful replies for an execution are the same response, memory store |
| ExecutionPlane.AnswersDifferOnlyAfterRetention | backend/app/sandbox/execution_plane.py:97-199 | with a retention, differing replies come from commits further apart than it |
| ExecutionPlane.OnlyLatestWorkerCommits | backend/app/sandbox/execution_plane.py:187-198 | the worker that commits is the last that acquired, inside its own lease; with a retention the one exception was granted over the retention ago on the same instance |
| ExecutionPlane.OneRunPerAssertionByExpiry | backend/app/sandbox/execution_plane.py:97-107 | one assertion starts at most one backend run among claims made by its expiry |
| ExecutionPlane.AtMostTwoRunsPerAssertion | backend/app/sandbox/workload_identity.py:77-96 | past the expiry the skew allows a second run; a third is claimed as long after its verification as a grant keeps the execution, but for four seconds: over six with any retention of ten or more |
| ExecutionPlane.SecondRunNeedsShortLease | backend/app/sandbox/workload_identity.py:93-96 | two runs of one assertion need a grant that keeps the execution no longer than its lifetime, twice the skew and the delay of the claim, whatever the retention |
| ExecutionPlane.SecondRunWithinSkew | backend/app/sandbox/workload_identity.py:93-96 | whenever a grant keeps it no longer than that, an interleaving with two runs under one assertion |
| ExecutionPlane.RunTwiceIff | backend/app/sandbox/execution_plane.py:97-107 | so exactly which settings, of any retention, allow two runs of one assertion |
| ExecutionPlane.LongLeaseRunsOnce | backend/app/sandbox/execution_plane.py:97-107 | otherwise one assertion starts at most one run, however many claims are made under it |
| ExecutionPlane.LeasesNeverOverlap | backend/app/sandbox/execution_plane.py:104-107 | no two leases of an execution overlap, evictions included, when no request that is let in has a lease over the retention and one second |
| ExecutionPlane.LeaseDisplaced | backend/app/sandbox/execution_plane.py:97-107 | for every retention and every admissible request with a longer lease, an interleaving in which its row is dropped and granted again under the live lease |
| ExecutionPlane.LeasesOverlapIff | backend/app/sandbox/execution_plane.py:97-107 | so exactly when a live lease can be displaced |
| ExecutionPlane.ValidatedOverlapIff | backend/app/core/config.py:624-628 | exactly which settings pass validation and let a live lease be displaced |
| ExecutionClient.Execute | backend/app/sandbox/execution_client.py:65-95 | only retryable posts are retried, within the attempts; exactly what each result means of the last post; the sleep is what was asked for, and bounded |
| ExecutionClient.PostUntilAnswered | backend/app/sandbox/execution_client.py:65-91 | the retry loop: which post it stops at and how long it has slept |
| ExecutionClient.VerdictMeans | backend/app/sandbox/execution_client.py:84-95 | a response is returned exactly when the post succeeded with the request's id and archive, passed or not; the exact condition of each error |
| ExecutionClient.ClampedIs | backend/app/sandbox/execution_client.py:78-82 | a delay from 0 to 2 seconds is obeyed, a longer one cut, text counts as one second |
| ExecutionClient.RetriedIffBusy | backend/app/sandbox/execution_client.py:73-84 | the client posts again exactly while its execution is running for this very request, and ends on every other answer |
| ExecutionClient.WorkersAnswerIsFinal | backend/app/sandbox/execution_plane.py:187-199 | it never posts again on the answer of a worker |
| ExecutionClient.CallOutcome | backend/app/sandbox/execution_client.py:42-95 | one call, one id, one assertion: a returned response was committed for the execution, whatever the settings, and when a grant keeps the execution longer than the assertion can be used there is at most one run |
| ExecutionClient.CallsAgree | backend/app/sandbox/execution_client.py:92-95 | two calls for one execution that return give the same response, memory store |
| CheckpointStore.SQLAlchemyCheckpointSaver.Put | backend/app/agent/checkpointer.py:94-145 | only changed channels are merged, with the checkpoint row; nothing else changes |
| CheckpointStore.SQLAlchemyCheckpointSaver.PutWrites | backend/app/agent/checkpointer.py:147-178 | the write table after the whole batch, slot by slot: what is kept, what is filled, what is overwritten; other tables unchanged |
| CheckpointStore.BatchFillsSlots | backend/app/agent/checkpointer.py:159-178 | a regular position owns its slot and keeps what it held, a special slot takes the last value, every other slot stays |
| CheckpointStore.SQLAlchemyCheckpointSaver.DeleteThread | backend/app/agent/checkpointer.py:180-190 | the three tables without the rows of the thread |
| CheckpointStore.SQLAlchemyCheckpointSaver.OrderedWrites | backend/app/agent/checkpointer.py:211-223 | the pending writes of a checkpoint, all of them, strictly ordered by task and index |
| CheckpointStore.SQLAlchemyCheckpointSaver.RebuildTuple | backend/app/agent/checkpointer.py:192-255 | the rebuilt snapshot and its ordered pending writes |
| CheckpointStore.SQLAlchemyCheckpointSaver.GetTuple | backend/app/agent/checkpointer.py:37-54 | the named checkpoint, or the greatest id of the scope; none when there is none |
| CheckpointStore.SQLAlchemyCheckpointSaver.List | backend/app/agent/checkpointer.py:56-92 | the selected checkpoints of one namespace, one thread or all of them, newest first, cut at the limit |
| CheckpointStore.SQLAlchemyCheckpointSaver.OrderedKeys | backend/app/agent/checkpointer.py:80-81 | all the candidates, each once, in descending order of id |
| CheckpointStore.FilteredOrders | backend/app/agent/checkpointer.py:80-92 | filtering the ordered records gives the ordered filtered records |
| CheckpointRefinement.RestoredIff | backend/app/agent/checkpointer.py:94-145 | exactly when a checkpoint just saved comes back as given |
| CheckpointRefinement.OthersKeptIff | backend/app/agent/checkpointer.py:111-138 | exactly when saving one checkpoint leaves another as it was |
| CheckpointRefinement.DeltaStoreRefines | backend/app/agent/checkpointer.py:192-255 | after any disciplined run every checkpoint is rebuilt as the store of full snapshots has it |
| CheckpointRefinement.NeverReboundRefines | backend/app/agent/checkpointer.py:94-145 | runs that never rebind a channel version are disciplined, so every checkpoint is rebuilt exactly |
| CheckpointRefinement.DeletedThreadIsGone | backend/app/agent/checkpointer.py:180-190 | nothing of the thread is left and other threads keep checkpoints and writes |
| CheckpointStore.RegularSlotKeepsFirst | backend/app/agent/checkpointer.py:160-164 | after any attempts a slot with index 0 or more holds the first value |
| CheckpointStore.SpecialSlotKeepsLast | backend/app/agent/checkpointer.py:160-178 | a negative slot holds the last value |
| CheckpointRefinement.PendingIsTheBatch | backend/app/agent/checkpointer.py:159-246 | a first batch of regular channels comes back as the pending writes of its task, whole and in order |
| CheckpointRefinement.PendingComesByTask | backend/app/agent/checkpointer.py:211-223 | pending writes come by task, and within one by slot |
| CheckpointRefinement.RepeatedBatchIsNoOp | backend/app/agent/checkpointer.py:158-178 | repeating a batch changes nothing |
| CheckpointRefinement.LatestIsListedFirst | backend/app/agent/checkpointer.py:37-92 | every unfiltered listing of a scope starts with the checkpoint that lookup without an id finds |
| CheckpointRefinement.SelectedIff | backend/app/agent/checkpointer.py:65-88 | exactly which checkpoints a listing selects, by thread, namespace, id, age and metadata |
| CheckpointRefinement.PagesConcatenate | backend/app/agent/checkpointer.py:78-92 | a full page and the page older than its last checkpoint are one listing |
| CheckpointRefinement.ListedById | backend/app/agent/checkpointer.py:46-77 | a listing by id shows what a lookup by id finds |
| CheckpointRefinement.LimitedListing | backend/app/agent/checkpointer.py:82-92 | a limited listing is a prefix of exactly the smaller of limit and selection, and what it omits is not newer |
| CheckpointRefinement.ScopeListingDescends | backend/app/agent/checkpointer.py:66-80 | within one thread and namespace the order is strictly descending |
| ImportGraph.ImportGraphSearch.TryAddNode | backend/app/agent/tools.py:285-294 | a known node is accepted, a new one only under the cap, otherwise truncation is recorded |
| ImportGraph.ImportGraphSearch.TryAddEdge | backend/app/agent/tools.py:296-305 | the same for edges; the first import of an edge is kept |
| ImportGraph.ImportGraphSearch.FollowImports | backend/app/agent/tools.py:311-326 | the outgoing loop does what the list of outgoing relations says, up to the first that does not fit |
| ImportGraph.ImportGraphSearch.FollowImporters | backend/app/agent/tools.py:327-345 | the same for the incoming double loop and both of its breaks |
| ImportGraph.ImportGraphSearch.ExpandNext | backend/app/agent/tools.py:308-345 | one turn of the main loop: the head leaves and all its relations are looked at |
| ImportGraph.ProcessBoth | backend/app/agent/tools.py:311-327 | two lists of relations in a row are their concatenation, stopping between them when truncated |
| ImportSearch.TouchesAre | backend/app/agent/tools.py:311-343 | what a turn looks at is exactly the relations of the file under the direction |
| ImportSearch.ProcessFits | backend/app/agent/tools.py:285-345 | a turn that is not truncated records every relation it looked at and visits every file it should |
| ImportSearch.ProcessQueues | backend/app/agent/tools.py:324-343 | every file put on the frontier is newly visited, once, one hop further |
| ImportSearch.VisitSound | backend/app/agent/tools.py:308-345 | caps, closure, node data and membership survive every turn, truncated or not |
| ImportSearch.LevelStep | backend/app/agent/tools.py:308-343 | the frontier stays the rest of one level followed by the part of the next found so far |
| ImportSearch.BuildImportGraph | backend/app/agent/tools.py:263-355 | at most 80 nodes and 120 edges, closed, nothing foreign; exact unless truncated; truncated exactly when the graph exceeds a cap; the missing-file result |
| ImportSearch.NodesAreDescribed | backend/app/agent/tools.py:502-510 | every node carries the path and language of its file, or the name of its module |
| ImportSearch.FilesWithinDepth | backend/app/agent/tools.py:308-343 | file nodes of an exact result are exactly those a walk of at most the depth reaches |
| ImportSearch.ModulesOfInnerFiles | backend/app/agent/tools.py:312-319 | module nodes are exactly the unresolved imports of inner files, when imports are followed |
| CallGraph.CallGraphSearch.TryAddNode | backend/app/agent/tools.py:365-374 | a known node is accepted, a new one only under the cap, otherwise truncation is recorded |
| CallGraph.CallGraphSearch.TryAddEdge | backend/app/agent/tools.py:376-391 | the same for edges |
| CallGraph.CallGraphSearch.Targets | backend/app/agent/tools.py:400-413 | the definitions a symbol may stand for, or one unresolved node |
| CallGraph.TargetsIff | backend/app/agent/tools.py:570-574 | what a symbol may stand for, spelt out: named pieces whose name ends alike, else a node of its own |
| CallGraph.CallEdgesIff | backend/app/agent/tools.py:550-574 | the edges about a symbol, spelt out on pieces and their calls |
| CallGraph.NextFollowsEdges | backend/app/agent/tools.py:417-453 | the search goes on along those edges: to named callers, and to whatever is called |
| CallGraph.CallGraphSearch.FollowCallers | backend/app/agent/tools.py:417-428 | only caller relations of the symbol are added, all of them unless cut short, with their names queued |
| CallGraph.CallGraphSearch.FollowCallees | backend/app/agent/tools.py:430-453 | the same for what its definitions call |
| CallGraph.CallGraphSearch.ExpandFrontier | backend/app/agent/tools.py:395-453 | one level: every symbol of the frontier is expanded once per lower-case form, and what it leads to is queued |
| CallGraph.BuildCallGraph | backend/app/agent/tools.py:357-466 | caps, edge sources always returned and targets unless truncated; the graph is made of the relations of the expanded symbols, each in one spelling; truncated exactly when these are over a cap |
| CallGraph.TruncatedIff | backend/app/agent/tools.py:365-391 | a graph of some symbols that lacks something only when full is truncated exactly when there are over 80 nodes or 120 edges about them |
| CallGraph.ExpandedIsWithin | backend/app/agent/tools.py:393-454 | every expanded symbol is less than the depth away, truncated or not |
| CallGraph.ExpandedWithinDepthIff | backend/app/agent/tools.py:393-454 | an untruncated search expands exactly the symbols less than the depth away if and only if no two of them differ only in case |
| CallGraph.CallsWithinDepth | backend/app/agent/tools.py:393-454 | every edge touches a symbol less than the depth away; without case collisions an untruncated graph has all such edges |
| CallGraph.CaseHidesCalls | backend/app/agent/tools.py:396-399 | an index on which every search is untruncated and leaves out a call one hop away |
| Verification.OutcomeIff | backend/app/agent/verification.py:40-62 | exactly which results count as not run, broken down, skipped or failed, on their fields |
| Verification.StatusIff | backend/app/agent/verification.py:156-192 | exactly which evidence gives each status: what the first phase that decides came to |
| Verification.ReasonNamesThePhase | backend/app/agent/verification.py:156-192 | the reason names that phase and its outcome; some phase decides or all went well |
| Verification.VerdictReports | backend/app/agent/verification.py:93-130 | the report on each phase, and the exit code of the last one with a result |
| Verification.ReproductionDecides | backend/app/agent/verification.py:65-71 | a run stops after reproduction exactly when the baseline alone decides the verdict |
| Verification.RegressionIsReachedIff | backend/app/agent/verification.py:74-83 | regression runs exactly when its result could still make the verdict a success |
| LocalLoop.ExecuteAction | backend/app/agent/loop.py:51-195 | the executor's lists, counters and route, for every kind of action; what is handed to a tool, and why anything else is not |
| LocalLoop.ExecuteHandsOn | backend/app/agent/loop.py:97-190 | a call is handed on, counted, remembered and logged exactly when within the time and tool budgets, not remembered, and an allowed command, a short read or a query |
| LocalLoop.ExecuteGivesReason | backend/app/agent/loop.py:97-134 | the reason logged for every action that is turned down |
| LocalLoop.ExecuteLearns | backend/app/agent/loop.py:136-150 | a new observation is kept, and is progress if it holds anything |
| LocalLoop.RouteIff | backend/app/agent/loop.py:66-171 | exactly when a result goes to patch generation or ends the run, and that only the latter has a finish reason |
| LocalLoop.HypothesesKept | backend/app/agent/loop.py:388-391 | at most twenty hypotheses, once each, the newest among them |
| LocalLoop.RejectionOnlyCosts | backend/app/agent/loop.py:248-298 | a rejection runs nothing, keeps evidence and fingerprints, is the last thing logged, and costs one step without progress or ends the run |
| LocalLoop.OnlyRejectionsEnd | backend/app/agent/loop.py:257-281 | of malformed actions in a row the executor, taken alone, hands back exactly as many as the steps without progress left allow |
| LocalLoop.PotentialDrops | backend/app/agent/loop.py:150-195 | every result that returns to the planner lowers the potential |
| LocalLoop.ExecuteRemembers | backend/app/agent/loop.py:136-190 | one result adds its entry and its call to the logs, of which history and fingerprints stay the ends, and keeps evidence aligned, unique and capped |
| FixGraph.StepKeepsFresh | backend/app/agent/graph.py:90-156 | a passing regression result exists only on the edge into the final answer, with results of the current patch |
| FixGraph.NoStaleEvidence | backend/app/agent/graph.py:60-157 | on every run, resumed ones included, a verified verdict rests on the last patch's results and an unpatched failing baseline |
| FixGraph.PatchAttemptsBounded | backend/app/agent/verification.py:65-90 | no patch after a passing or broken baseline, and no more patches than iterations allow |
| FixGraph.VisitDecreases | backend/app/agent/graph.py:94-156 | every visit of a node lowers one measure of what remains |
| FixGraph.EveryRunEnds | backend/app/agent/graph.py:90-157 | every uninterrupted run ends, concluded or paused, within an explicit bound |
| FixGraph.EveryResumedRunEnds | backend/app/agent/graph.py:60-65 | so does every resumed run |
| FixGraph.VerifiedRunExists | backend/app/agent/graph.py:90-156 | a run that reaches a verified verdict |
| RepairRuns.StepPays | backend/app/services/agent_service.py:1006-1013 | every visit and resumption pays for what it hands back to the planner or reflects on: out of tool calls and steps without progress, which a patch resets, planner calls, and iterations |
| RepairRuns.RunPays | backend/app/agent/graph.py:90-157 | so does every run |
| RepairRuns.PlanRoutesAreAffordable | backend/app/agent/loop.py:40-49 | on every run what went back to the planner is within the budgets, given its reflections |
| RepairRuns.RoutesAttained | backend/app/agent/loop.py:150-171 | a planner that wastes what it can, then reads, then patches gets back any number of results still affordable |
| RepairRuns.PlanRoutesPossibleIff | backend/app/agent/graph.py:90-157 | exactly how many results can go back to the planner in one run, for any budgets |
| RepairRuns.MostIsReachedIff | backend/app/agent/graph.py:90-157 | the most there can be, and exactly which planner budgets allow it |
| RepairRuns.StepKeepsRunInv | backend/app/services/agent_service.py:1078-1110 | every visit keeps history and fingerprints the ends of the logs of the run, and evidence aligned, unique and capped, also when a reflection records it |
| RepairRuns.DataInvariant | backend/app/agent/loop.py:136-190 | on every run: evidence aligned, unique and capped; history and fingerprints are the ends of the full logs; calls within the tool budget and the planner's calls |
| RepairRuns.ReflectionIsLearned | backend/app/services/agent_service.py:1092-1108 | a failure reflected on is the newest evidence unless it was known |
| RepairRuns.CallsAreLegal | backend/app/agent/loop.py:117-134 | every call of every run is an allowed test command, a read within the limit or a query |
| RepairRuns.PlannerAnswerIff | backend/app/agent/loop.py:40-49 | the planner's answer is carried out exactly within time, calls, tokens and progress; else the run is over two visits later |
| RepairRuns.NoRepeatedDispatchIff | backend/app/agent/loop.py:106-115 | no run makes a call twice exactly when the tool budget or the planner's calls are at most the history cap plus one |
| RepairPauses.PausesWhenAsked | backend/app/agent/graph.py:38-57 | a run that asked for a decision stays at its pause until someone decides, and patches, calls and plans nothing meanwhile |
| RepairPauses.WaitsIff | backend/app/agent/graph.py:102-126 | exactly when a run is over and waiting for an approval or a reconciliation |
| RepairPauses.ResumptionLeads | backend/app/agent/graph.py:60-65 | where a decision leads, and what it counts |
| RepairPauses.ToolEdgesIff | backend/app/agent/graph.py:38-57 | exactly where each node around remote calls leads, from what it finds |
| RepairPauses.PatchEdgesIff | backend/app/agent/graph.py:126-156 | the same around a patch: no duplicate is applied, a failure is reflected on while iterations are left |
| RepairPauses.FirstEdgesIff | backend/app/agent/graph.py:94-106 | the same before a patch |
| RepairPauses.EndedByPlannerFails | backend/app/agent/verification.py:171-172 | a run ended by its planner or budgets is judged to have no patch applied, on every run |
| RepairPauses.ResultsAreRecorded | backend/app/services/agent_service.py:1017-1069 | every recorded result is that of the phase just run |
| RepairPauses.RoundsBounded | backend/app/agent/graph.py:46-51 | no run completes more rounds than it may, however often resumed, and both counters are exact |
| McpCatalog.AddTools | backend/app/mcp/router.py:59-73 | the tools of one server: allowed ones become entries, oversized ones errors, until the catalog is full |
| McpCatalog.Discover | backend/app/mcp/router.py:40-74 | the first allowed entries in server order, up to the cap, the errors met before the last of them, truncated exactly when they reach the cap |
| McpCatalog.CatalogIsTheFirst | backend/app/mcp/router.py:71-74 | stopping at the entry that fills the catalog takes the first entries there are, and sees whether they reach the cap |
| McpCatalog.EntriesAreOffered | backend/app/mcp/router.py:310-324 | every entry is allowed by its server and carries that server's policy, deny by default |
| McpCatalog.FoundAllIff | backend/app/mcp/router.py:40-74 | everything found is an entry or a problem of a listed tool or a failed server, and nothing is passed over |
| McpCatalog.EntriesIff | backend/app/mcp/router.py:59-73 | exactly which tools can be in a catalog |
| McpCatalog.ActiveServersIff | backend/app/mcp/router.py:41-45 | servers are asked exactly when enabled and allowing some tool |
| McpCatalog.UnconfiguredIsNeverPlanned | backend/app/mcp/router.py:310-324 | a tool without a policy of its own is never called or asked for |
| McpCatalog.QualifiedNameIsInjective | backend/app/mcp/client.py:61-66 | a qualified name determines server and tool, as server names hold no dot |
| McpCatalog.SameNameSameTool | backend/app/mcp/router.py:310-324 | entries of one name differ at most in their schema |
| McpCatalog.NameStandsForOneTool | backend/app/mcp/router.py:310-324 | a qualified name stands for one server and tool in any two discovered catalogs |
| McpCatalog.ApprovalNeverDiverts | backend/app/services/agent_service.py:289-327 | resolved against a catalog discovered anew, an approved request goes to the planned server and tool exactly when still listed, approvable and valid, otherwise nowhere |
| McpCatalog.CurrentPolicyDecides | backend/app/mcp/router.py:261-324 | and only while its server still allows the tool under the approval policy |
| McpCatalog.RepeatedToolIsRefused | backend/app/mcp/router.py:119-293 | a server listing a tool twice: planned under the second schema, refused under the first |
| McpRouter.LastEntryWins | backend/app/mcp/router.py:119 | planning uses the last entry of a name |
| McpRouter.FirstEntryWins | backend/app/mcp/router.py:251-254 | approval uses the first |
| McpRouter.Consider | backend/app/mcp/router.py:132-177 | one turn of the loop appends to the lists what the verdict on the proposal says |
| McpRouter.ValidatePlan | backend/app/mcp/router.py:111-184 | the three lists are those of the verdicts, each decided from the verdicts before it |
| McpRouter.EachProposalOnce | backend/app/mcp/router.py:132-184 | each proposal considered lands once, in order, in one of the lists |
| McpRouter.AdmitsTheFirst | backend/app/mcp/router.py:132-177 | what is made or asked for are the first distinct eligible fingerprints that fit the budget |
| McpRouter.FirstsAreDistinct | backend/app/mcp/router.py:145-149 | those are all the eligible fingerprints, each once, none observed before |
| McpRouter.PlanWithinBudget | backend/app/mcp/router.py:160-177 | calls plus requests are the smaller of the budget and the distinct eligible proposals, distinct and new |
| McpRouter.PlanIsGreedy | backend/app/mcp/router.py:162-177 | both lists, in order, from the proposals alone |
| McpRouter.EligibleFate | backend/app/mcp/router.py:143-177 | the verdict on every eligible proposal, from the distinct eligible ones before it |
| McpRouter.IneligibleFate | backend/app/mcp/router.py:135-159 | a proposal that is not eligible is never made or asked for |
| McpRouter.BarredIff | backend/app/mcp/router.py:133-146 | exactly which proposals are no call, unknown or denied |
| McpRouter.RefusedIff | backend/app/mcp/router.py:147-177 | of the others, exactly which repeat, fail the schema, find no budget, or have an unknown policy |
| McpRouter.RejectedIff | backend/app/mcp/router.py:132-177 | the rejections listed are those verdicts |
| McpRouter.PlanCounts | backend/app/mcp/router.py:132-184 | at most twenty proposals are considered, each in one list |
| McpRouter.BudgetRejectionMeansFull | backend/app/mcp/router.py:160-162 | a rejection for the budget only when the plan uses all of it |
| McpRouter.MakePlan | backend/app/mcp/router.py:76-109 | the planner is skipped without budget or callable tools, otherwise its proposals are filtered |
| McpRouter.SkippingIsHarmless | backend/app/mcp/router.py:86-94 | the filter would have let nothing through in the skipped case |
| McpRouter.ToolRouter.Execute | backend/app/mcp/router.py:186-239 | exactly one call leaves, for an authorised auto tool with valid arguments; otherwise none, with the reason |
| McpRouter.ToolRouter.ExecuteApproved | backend/app/mcp/router.py:241-307 | exactly one call leaves, under policy approval_required, with the approved hash and a valid schema; otherwise none, with the exact condition of each reason |
| McpRouter.PlannedIsExecuted | backend/app/mcp/router.py:194-217 | an accepted call revalidated alone is the same call, and one needing approval is not made |
| McpRouter.OnlyAutoIsExecuted | backend/app/mcp/router.py:174-217 | without approval only a catalog entry with policy auto is called |
| McpRouter.ApprovedGoesThroughIff | backend/app/mcp/router.py:251-293 | against any later catalog of unique names an approved request goes through as planned exactly when the catalog still offers it, and the entry it was planned from does; with repeated names exactly when the first entry does |

## Left out

- Clocks are integers, as in Redis; the dictionary store reads a float clock. Owner, ids and tasks are opaque values.
- Stamps are read before the lock or the Redis round trip, so with a monotone clock a later step can still carry an earlier stamp. Fencing and the commit-before-reply results of the store hold in any order; for bounded disorder the store-level bounds shift by it (`CommitsFarApartWithin`, `LeasesDisjointWithin`, `NoSecondAcquisitionWithin`). The interleavings of `ExecutionPlane` take stamps in step order.
- SHA-256 fingerprints and request hashes are taken as injective; a request hash is modelled as the request it binds.
- Signature, issuer, audience and subject checks of an assertion: only its time window and request binding are modelled.
- Handler exits other than those of the store and the policies (400, 403 for the shell command, 412, 503) and the backend run itself: a worker that never completes.
- The bytes of HTTP, JSON and the response parsing of the client and of the Redis replies.
- RedisExecutionStore.ClaimScriptRefines: requires a time to live of at least one second, which the handler always passes; the dictionary store accepts less.
- Redis key expiry happens once the clock has passed the expiry; eviction under memory pressure is not modelled.
- Serialisation is lossless; checkpoint and task ids are points of a linear order; a version key is its text; `get_checkpoint_metadata` and the special index table are inputs.
- CheckpointStore.BatchFillsSlots: takes the indices of special channels to be negative, as the library's are.
- The order in which a listing across scopes shows equal ids, which the query leaves open.
- Import resolution is an arbitrary function into the indexed files: its path normalisation and suffix matching are not modelled. Module ids are disjoint from file paths, and a path is never empty.
- The order of returned nodes and edges, and the metadata echoed with a graph.
- The call extraction pattern, dotted-name splitting and lower-casing are functions of the index; the end line of a symbol node is dropped.
- Action schemas, history sequence numbers, timestamps, file contents and the text of diagnoses; the deadline is a boolean input. The `action_not_whitelisted` branch cannot be reached from a valid action.
- FixGraph nodes are arbitrary updates of their own channels, taken from `backend/app/services/agent_service.py:516-1169`; `GeneratePatch` and `Reflect` are named `GenerateDiff` and `ReflectOnFailure`. Whether a tool router exists is constant within a run; the contents of MCP rounds are left out.
- The step limit the graph library sets on one invocation is not part of this model; neither are planner tokens and deadlines of particular calls, which are inputs of every visit.
- FixGraph.EveryRunEnds: bounds one invocation; how often people resume a paused run is not bounded by the graph.
- Schema validation, authorisation and the tool server's answer are functions or inputs; prior observations are given as the set of their fingerprints; a missing input schema is taken as given in its default form.
- JSON reference search in schemas, prompts, providers and everything under `app/services` not named above: easy members or foreign effects.
