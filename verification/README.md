# Verified models of Vaner's queues, pools, loops and policies

Dafny models of the small state machines and packing loops inside Vaner, each proved against a
specification, and theorems about those specifications over every input, run or interleaving.
`dafny verify dfyconfig.toml` checks the whole project.

| part | files |
|---|---|
| Bounded preemptive job queue of the precompute worker | `JobQueue.dfy` (the binary heap), `WorkerMachine.dfy` (the transition system and its theorems), `TopK.dfy` (whole sequences of requests), `Worker.dfy` (the object) |
| Weighted round-robin endpoint pool with circuit breaker | `EndpointPool.dfy` |
| Exploration frontier and bounded-parallel dispatcher | `Frontier.dfy`, `Exploration.dfy` (the transition system), `ExplorationSafety.dfy`, `ExplorationEnds.dfy` (termination), `LostWork.dfy`, `Revisits.dfy`, `OverCap.dfy`, `Completions.dfy` (what a completion pushes), `Dispatcher.dfy` (the loop) |
| Incremental server-sent-events reader | `Sse.dfy`, with a printer and the interpretation of the WHATWG HTML Living Standard, sections 9.2.5 and 9.2.6 |
| Budget packing, assembly, de-duplication, caps, selection | `Ranking.dfy`, `Packing.dfy`, `Assembly.dfy`, `Evidence.dfy`, `EvidenceCaps.dfy`, `Selector.dfy` |
| Focus policy | `Focus.dfy` |
| Prediction events: registry, log, rebuilt snapshot | `Replay.dfy`, `Registry.dfy`, `RegistryRuns.dfy` (what the operations amount to), `LiveRegistry.dfy` |
| Shared definitions | `Common.dfy` |
| Undo of source boosts | `Boosts.dfy`, `BoostFeedback.dfy` (with loads and feedback) |
| Primer block splice | `Splice.dfy` |

Code that changes an object or runs a loop is a class or a method with loops here, tied by its contract to a
function on values; the theorems are lemmas about those functions, and further lemmas tell what the functions
compute from their inputs alone, in the caller's terms. Concurrency is a transition system whose
steps are the stretches of code between awaits.

Where the code does not do what its own documentation, comments or names promise, the model follows the code,
and the exact condition under which the two agree is a lemma:

- The worker clamps the stored priority but compares the requested one, so a negative request overtakes
  (`TopKIff`). Evicted jobs are never marked done, so the unfinished count never returns to zero after an
  eviction (`EvictionLeaksUnfinished`).
- The dispatcher's comments say that follow-ons pushed by tasks in flight are picked up after the frontier
  runs empty; the loop condition already ends the loop there (`EmptyExitLosesIff`, `LossHappens`), and its
  branch for an empty pop is dead (`Dispatcher.ExplorationCycle.Turn`). An id may be explored twice
  (`RevisitIff`, `ExploredTwice`).
- The frontier documents that scenarios beyond the depth cap plus bonus are refused; an upgrade of a pending
  one is not tested (`PushKeepsCapIff`, `CapIsPassed`). Termination holds all the same.
- The reader's backoff is described as 3 to 60 seconds; after the first failure it already waits 6
  (`WaitShape`). It drops leading empty data lines and all leading white space of a value, where the
  standard drops one space (`AgreesWithStandardIff`), and never reads a stream with CR LF line ends
  (`CrLfReadsNothing`).
- Packing counts ranks but renders keys, so artefacts sharing a key can exceed the budget
  (`RenderedTokensIff`).
- The plan of the safe assembly does not mark duplicates of an item without a path, which are nevertheless
  removed; the active mode marks duplicates and removes nothing (`PlanExecutedIff`).
- The rebuilt snapshot is described as matching the registry's `active()`; adopted predictions stay in it
  (`ActiveAgreeIff`, `AdoptedStaysListed`), and three counters lag until the next progress event
  (`CatchUpIff`, `CompletionGoesUnseen`). The weight floor that no admitted prediction should fall below is
  passed by stalled items (`FloorIff`, `StalledBelowFloor`).
- The comment at the sync says that applied boosts are removed before new ones are put on. That is exact on every table
  the code reaches (`AlwaysInRange`, `SyncsExact`), unless feedback or a policy load comes in between
  (`FeedbackExactIff`, `LoadExactIff`, `HitKeepsPartOfBoost`); a restart forgets what to undo
  (`RestartsCompound`).
- A sync of the primer makes the check pass only for well-marked texts (`SyncThenCheckIff`).

Some lemmas describe behaviour that no documentation speaks of: with a negative best score the selector selects
nothing (`SelectionIsPrefix`), and a minimum of two items, which no caller asks for, can overrun a section's
budget (`ForcedItemOverrunsIff`).

## Model

| member | source | states |
|---|---|---|
| `WorkerMachine.KeepsBest` | `src/vaner/daemon/precompute_worker.py:299-338` | over any sequence of requests with no dequeue, from any reachable queue, what is pending is exactly the first `capacity` of the stable order (priority, then arrival) of everything initially pending and everything requested; the only condition is that no request overtakes |
| `WorkerMachine.SurvivorsByRank` | `src/vaner/daemon/precompute_worker.py:299-338` | for requests of priority at least 0: as many survive as fit, and a request whose rank (counted without sorting) is below the capacity is pending at exactly that place |
| `WorkerMachine.TopKExactlyUnlessOvertaking` | `src/vaner/daemon/precompute_worker.py:330-331` | one request breaks the order if and only if the queue is full, the request is negative and the worst pending job has priority 0: the stored priority is clamped, the compared one is not |
| `TopK.TopKIff` | `src/vaner/daemon/precompute_worker.py:299-338` | over a whole sequence of requests with ids of their own, the queue is a top-k selection if and only if no request of the sequence overtakes |
| `TopK.FirstOvertakingBreaks` | `src/vaner/daemon/precompute_worker.py:330-332` | an overtaking throws out one of the best for good, whatever is requested later |
| `WorkerMachine.OvertakingHappens` | `src/vaner/daemon/precompute_worker.py:311-332` | a concrete request of priority -1 that evicts the older request of equal stored priority |
| `WorkerMachine.InsertThenTake` | `src/vaner/daemon/precompute_worker.py:324-338` | rejecting on a tie and evicting the maximum is taking the best k after a stable insertion |
| `WorkerMachine.RunConserves` | `src/vaner/daemon/precompute_worker.py:207-215` | over every run: calls = accepted + coalesced; the accepted jobs are exactly the pending, running, finished, evicted and drained ones, none twice; unfinished = pending + running + evicted |
| `WorkerMachine.RunKeepsInv` | `src/vaner/daemon/precompute_worker.py:207-338` | the invariant (order, numbering, conservation, unfinished count never too small for task_done) survives every sequence of enqueue, get, end, reap and control steps |
| `WorkerMachine.EvictionLeaksUnfinished` | `src/vaner/daemon/precompute_worker.py:332-338` | an evicted job is never marked done: the unfinished count is never again zero after an eviction, and before one it is zero exactly when nothing is pending or running |
| `WorkerMachine.GetTakesLeast` | `src/vaner/daemon/precompute_worker.py:209-210` | the job taken is the strict least of the pending ones by (priority, sequence) |
| `WorkerMachine.CancelledOnlyFor` | `src/vaner/daemon/precompute_worker.py:319-320` | a live job is asked to stop only by an accepted request of strictly better priority, or by a control message that names it or no job |
| `WorkerMachine.DrainKeepsInv` | `src/vaner/daemon/precompute_worker.py:284-297` | draining keeps conservation and the unfinished count exact, so its task_done never underflows |
| `WorkerMachine.ControlKeepsInv` | `src/vaner/daemon/precompute_worker.py:256-282` | a control message of any action, with or without drain, keeps the invariant |
| `WorkerMachine.ControlTells` | `src/vaner/daemon/precompute_worker.py:256-282` | the whole effect of a control message: cancel_active, pause and pause_all empty the queue into the drained jobs if and only if drain is set, and ask the running job to stop if they name it or no job; any other action changes nothing |
| `WorkerMachine.RequestRefused` | `src/vaner/daemon/precompute_worker.py:299-332` | a request is refused, which only counts it, if and only if the queue is full of jobs at least as good as it asks to be |
| `WorkerMachine.RequestTaken` | `src/vaner/daemon/precompute_worker.py:299-338` | any other becomes the job of the next number with its priority raised to 0; the last pending job and no other leaves a full queue for it, and a running job of worse priority is asked to stop |
| `WorkerMachine.ServedInOrder` | `src/vaner/daemon/precompute_worker.py:207-215` | left to itself the worker finishes the pending jobs one by one in exactly their order, and the unfinished count falls with each |
| `JobQueue.RootIsLeast` | `src/vaner/daemon/precompute_worker.py:209-209` | in a heap-ordered array no entry is less than the root |
| `JobQueue.SinkStep` | `src/vaner/daemon/precompute_worker.py:335-337` | moving the smaller child up into the hole leaves the heap ordered everywhere but at the child's place |
| `JobQueue.PriorityQueue.Heapify` | `src/vaner/daemon/precompute_worker.py:335-337` | restores heap order over any array and keeps the multiset of entries |
| `JobQueue.PriorityQueue.Put` | `src/vaner/daemon/precompute_worker.py:314-314` | adds one entry, keeps heap order, counts one more unfinished |
| `JobQueue.PriorityQueue.Get` | `src/vaner/daemon/precompute_worker.py:209-209` | removes a least entry, keeps heap order and all other entries |
| `JobQueue.PriorityQueue.TaskDone` | `src/vaner/daemon/precompute_worker.py:215-215` | takes one off the unfinished count, or fails at zero |
| `Worker.LastIsWorst` | `src/vaner/daemon/precompute_worker.py:328-329` | the entry that `max` finds over the unordered heap array is the last pending job of the ordered machine |
| `Worker.PrecomputeWorker.WorstIndex` | `src/vaner/daemon/precompute_worker.py:328-328` | returns an index no entry exceeds |
| `Worker.PrecomputeWorker.MakeRoomFor` | `src/vaner/daemon/precompute_worker.py:324-338` | makes room exactly when the queue is empty or its worst job is worse than the request; then precisely that job is gone from the heap, which is in heap order again |
| `Worker.PrecomputeWorker.EnqueueJob` | `src/vaner/daemon/precompute_worker.py:299-322` | the object takes exactly the machine step; the result is false, and nothing is queued or stopped, if and only if the queue is full of jobs at least as good as the request |
| `Worker.PrecomputeWorker.TakeNext` | `src/vaner/daemon/precompute_worker.py:208-211` | one turn of the loop is the machine step; an idle worker takes a queued job that is least by (priority, sequence) |
| `Worker.PrecomputeWorker.ReapTask` | `src/vaner/daemon/precompute_worker.py:213-215` | after a job the running slot is cleared and task_done never raises |
| `Worker.PrecomputeWorker.DrainQueue` | `src/vaner/daemon/precompute_worker.py:284-297` | empties the queue, returns how many jobs it held, and its task_done never raises |
| `Worker.PrecomputeWorker.HandleWorkerControl` | `src/vaner/daemon/precompute_worker.py:256-282` | the object takes exactly the machine step for the message; the queue is empty afterwards if the action is a known one and drain is set, and untouched otherwise |
| `Ranking.SortedByRank` | `src/vaner/broker/compressor.py:27-28` | a stable sort puts every element at its rank, counted without sorting: a smaller key, or an equal one and an earlier position, goes before |
| `Ranking.StableSortAscending` | `src/vaner/broker/selector.py:612-612` | the sort is ordered and a permutation |
| `Ranking.RankStrict` | `src/vaner/broker/selector.py:612-612` | different positions have different ranks, so the rank fixes the whole order |
| `Ranking.RankTaken` | `src/vaner/broker/selector.py:612-612` | every place of the sorted sequence is the rank of some element |
| `EndpointPool.WeightedFairness` | `src/vaner/clients/endpoint_pool.py:196-212` | while every pick sees the same non-empty healthy set, any window of m consecutive picks takes each healthy endpoint exactly weights[e] times, once where that is less than 1, and no other at all; m is the sum of those numbers; from any cursor and with any outcomes recorded in between |
| `EndpointPool.ExpandCount` | `src/vaner/clients/endpoint_pool.py:111-114` | the rotation holds endpoint e exactly weights[e] times, and once where that is less than 1 |
| `EndpointPool.SlotsOf` | `src/vaner/clients/endpoint_pool.py:111-114` | as many slots are healthy as the weights of the healthy endpoints add up to, a weight of less than 1 counting as 1 |
| `EndpointPool.ExpandInOrder` | `src/vaner/clients/endpoint_pool.py:111-114` | the slots of an endpoint lie together, in the order of the endpoints |
| `EndpointPool.FreshTurn` | `src/vaner/clients/endpoint_pool.py:115-207` | a new pool whose endpoints stay healthy takes its slots in order from the first on |
| `EndpointPool.PickIsNextUp` | `src/vaner/clients/endpoint_pool.py:202-207` | a pick goes around the slots from the cursor on to the first whose expiry has passed, and leaves the cursor behind it |
| `EndpointPool.WindowIsTurn` | `src/vaner/clients/endpoint_pool.py:202-207` | any m consecutive picks are one rotation of the healthy slots |
| `EndpointPool.ScanMeetsTurn` | `src/vaner/clients/endpoint_pool.py:202-207` | the skipping scan stops at the first healthy slot in cyclic order and nowhere else |
| `EndpointPool.PickPrefersHealthy` | `src/vaner/clients/endpoint_pool.py:202-212` | if any endpoint is healthy the pick is; otherwise the cursor stays and the soonest expiry is tried |
| `EndpointPool.BreakerTellsHistory` | `src/vaner/clients/endpoint_pool.py:224-238` | over every interleaving, each record tells its own outcomes: the failure count is the length of the all-failure suffix, the last failure and the expiry are the right ones, the latter with threshold 3 and 60 seconds |
| `EndpointPool.CooldownIff` | `src/vaner/clients/endpoint_pool.py:206-238` | an endpoint is cooling down if and only if its outcomes end in three or more failures, the last under 60 seconds ago |
| `EndpointPool.FallbackFailedLongestAgo` | `src/vaner/clients/endpoint_pool.py:208-212` | when all cool down, the one tried is one whose last failure is oldest |
| `EndpointPool.SuffixUnique` | `src/vaner/clients/endpoint_pool.py:232-237` | an outcome history has one all-failure suffix length, so the count is determined |
| `EndpointPool.RecordCounts` | `src/vaner/clients/endpoint_pool.py:224-236` | each record also holds the time of its last success and the number of its failures |
| `EndpointPool.ExplorationEndpointPool.PickEntry` | `src/vaner/clients/endpoint_pool.py:196-212` | the loop over the cursor takes exactly the pick of the specification and moves only the cursor |
| `EndpointPool.ExplorationEndpointPool.ExpiresFirst` | `src/vaner/clients/endpoint_pool.py:211-211` | the first entry with the least expiry |
| `EndpointPool.ExplorationEndpointPool.RecordSuccess` | `src/vaner/clients/endpoint_pool.py:224-229` | clears count and cooldown of this entry and leaves the others alone |
| `EndpointPool.ExplorationEndpointPool.RecordFailure` | `src/vaner/clients/endpoint_pool.py:231-238` | counts the failure and arms the cooldown from the third in a row |
| `EndpointPool.BuildPool` | `src/vaner/clients/endpoint_pool.py:104-115` | fails exactly on no endpoints; otherwise starts at cursor 0 with a rotation in which endpoint after endpoint stands as often as its weight says |
| `Frontier.PushKeepsCapIff` | `src/vaner/intent/frontier.py:706-738` | a push leaves its entry within the depth cap plus bonus if and only if it is not an upgrade to a depth above it: the upgrade path has no depth test |
| `Frontier.UpgradePassesCap` | `src/vaner/intent/frontier.py:706-730` | a single push that breaks the cap |
| `OverCap.CapIsPassed` | `src/vaner/intent/frontier.py:706-730` | a run from three seeds of depth 0 under cap 1 that leaves a scenario pending at depth 2 without a bonus |
| `Frontier.ExplorationFrontier.PushScenario` | `src/vaner/intent/frontier.py:677-774` | the frontier with its heap of outdated entries behaves as a plain map of pending scenarios; true exactly when newly admitted; whatever is stored gets the next push counter |
| `Frontier.ExplorationFrontier.PopScenario` | `src/vaner/intent/frontier.py:780-799` | finds something exactly when something is pending, and then of the pending scenarios of greatest priority the one with the least push counter |
| `Frontier.ExplorationFrontier.MarkAsExplored` | `src/vaner/intent/frontier.py:801-824` | removes the id from pending and adds it to explored |
| `ExplorationSafety.DispatcherSafe` | `src/vaner/engine.py:2408-2452` | over every interleaving: fewer than max_inflight tasks at each turn of the loop, as many places as the concurrency inside the semaphore at most, twice the concurrency of tasks held, and at the end popped = completed + skipped as multisets, all completed ids explored |
| `ExplorationSafety.NextKeepsInv` | `src/vaner/engine.py:2143-2452` | the dispatcher invariant survives every step: dispatch, enter, skip, complete with any branches, resume, leave, drain |
| `ExplorationSafety.BoundedKeeps` | `src/vaner/engine.py:2434-2436` | backpressure: the number of tasks held stays bounded |
| `ExplorationSafety.AccountedKeeps` | `src/vaner/engine.py:2403-2452` | each popped scenario is in flight, completed or skipped, counted per scenario |
| `ExplorationEnds.RunsAreShort` | `src/vaner/engine.py:2341-2379` | the steps of any run are paid for by the rank it uses up |
| `ExplorationEnds.ExplorationTerminates` | `src/vaner/engine.py:2408-2452` | termination: no run from a seeded cycle, whatever is proposed and however tasks interleave, has more steps than the rank of the seeded frontier |
| `ExplorationEnds.NextDecreases` | `src/vaner/engine.py:2341-2452` | every step lowers the rank, a geometric weight over frontier and tasks in flight |
| `ExplorationEnds.CompletionShrinks` | `src/vaner/engine.py:4316-4336` | a completion outweighs everything it pushes, with children at depth + 1 and at most max_follow_on of them |
| `ExplorationEnds.PushWeight` | `src/vaner/intent/frontier.py:706-766` | a push adds at most the weight of its depth, and nothing beyond the depth limit, upgrades included |
| `ExplorationEnds.Progress` | `src/vaner/engine.py:2408-2452` | before the end some step is always possible, without help from the governor, and from the deadline only if it has cut a task short |
| `ExplorationEnds.CanFinish` | `src/vaner/engine.py:2408-2452` | from every reachable state some run reaches the end of the cycle |
| `LostWork.DrainNeverDispatches` | `src/vaner/engine.py:2446-2452` | once the loop is left nothing is popped, so what the drain pushes stays unexplored |
| `LostWork.EmptyExitLosesIff` | `src/vaner/engine.py:2399-2429` | from every state the loop can leave on an empty frontier, breadth phase included: the cycle can end with admitted, unexplored follow-ons if and only if some unfinished task may branch under the present depth cap, or under the full one once another task that it can outlast has opened it; the comment at the loop promises otherwise |
| `LostWork.LosingRun` | `src/vaner/engine.py:2403-2429` | builds such a run wherever a task may branch under the present cap |
| `LostWork.LosingRunLater` | `src/vaner/engine.py:2399-2401` | builds one where another task opens the full depth first |
| `LostWork.LossHappens` | `src/vaner/engine.py:2104-2106` | a concrete cycle in its breadth phase, from one seed, that ends with an unexplored follow-on |
| `Revisits.ReadmissionIff` | `src/vaner/engine.py:2357-2396` | of one completion, after which no popped id is pending again if and only if none of its branches readmits one that was popped and is not yet explored; a step towards the next rows |
| `Revisits.OthersPopOnce` | `src/vaner/engine.py:2408-2452` | no other step makes a popped id pending or pops one twice |
| `Revisits.CyclePopsOnce` | `src/vaner/engine.py:2357-2452` | a run from a seeded cycle in which no completion readmits pops every id at most once |
| `Revisits.RevisitIff` | `src/vaner/engine.py:2357-2429` | after a completion, some continuation without further readmission pops an id twice if and only if the loop waits, no task has been skipped, and a branch readmits an id that can come back in time: there is room for two tasks, or it is the best pending one |
| `Revisits.ExploredTwice` | `src/vaner/engine.py:2357-2396` | a concrete run from seeds that explores one id twice |
| `Completions.FreshFollowOn` | `src/vaner/engine.py:2351-2379` | a scenario neither pending nor explored is pending after a completion if and only if a branch to it passes the gates and parent depth + 1 is at most the cap plus the bonus it inherits: the larger of the parent's and the configured one from the drill threshold on, else the parent's less one and not below 0; it then has that depth and bonus, and the highest priority proposed from the admitting branch on |
| `Completions.KnownFollowOn` | `src/vaner/intent/frontier.py:706-730` | a pending one is taken over, at the new depth and with the larger bonus, if and only if a branch proposes it with higher priority, whatever its depth and gates |
| `Completions.CompletionMarks` | `src/vaner/engine.py:2381-2401` | the rest of a completion: the scenario is explored and not pending, no explored one comes back, and the depth cap opens if and only if asked to |
| `Completions.UnfinishedTells` | `src/vaner/engine.py:2434-2436` | when the loop resumes it holds exactly the unfinished tasks, in their order |
| `Dispatcher.ExplorationCycle.Turn` | `src/vaner/engine.py:2409-2440` | one turn of the loop is one step of the transition system; it dispatches exactly when the governor, coverage, frontier and deadline allow; the pop always finds something, so the branch for an empty pop is dead |
| `Dispatcher.ExplorationCycle.Spawn` | `src/vaner/engine.py:2413-2436` | pops the best scenario, creates its task, and waits at max_inflight |
| `Dispatcher.ExplorationCycle.constructor` | `src/vaner/engine.py:2104-2106` | a cycle starts seeded, with the depth cap 1 unless enough files are covered already or the configured depth is 0 |
| `Dispatcher.ExplorationCycle.EnterTask` | `src/vaner/engine.py:2173-2173` | entering the semaphore, first come first served, is a step of the system |
| `Dispatcher.ExplorationCycle.SkipTask` | `src/vaner/engine.py:2175-2176` | a task skips exactly when the deadline has passed and something has been explored or it would use the LLM; otherwise nothing changes |
| `Dispatcher.ExplorationCycle.ParseFollowOns` | `src/vaner/engine.py:4316-4336` | of the model's answer the items that name files are kept among the first 3, or the configured number if larger for a scenario at the drill threshold or with a bonus |
| `Dispatcher.ExplorationCycle.PushBranches` | `src/vaner/engine.py:2357-2379` | the loop over the follow-ons is the push of all of them in order, which the rows of `Completions` tell from depths, priorities and bonuses |
| `Dispatcher.ExplorationCycle.CompleteTask` | `src/vaner/engine.py:2341-2401` | the section under the state lock is the completion step, and opens the full depth exactly the first time enough files are covered |
| `Dispatcher.ExplorationCycle.ResumeLoop` | `src/vaner/engine.py:2434-2436` | keeps the tasks still pending |
| `Dispatcher.ExplorationCycle.EndDrain` | `src/vaner/engine.py:2446-2452` | the drain ends when every task is done, and then popped = completed + skipped |
| `Sse.RoundTripIff` | `crates/vaner-contract/src/sse.rs:104-140` | printing a list of payloads and feeding the text, cut into any chunks, gives back exactly the list if and only if every payload has a non-empty first line and no line starting with white space |
| `Sse.AgreesWithStandardIff` | `crates/vaner-contract/src/sse.rs:104-140` | on every stream of complete lines without CR the reader dispatches what the WHATWG HTML Living Standard, section 9.2.6, dispatches if and only if the data of every event is absent or clean |
| `Sse.CrLfReadsNothing` | `crates/vaner-contract/src/sse.rs:111-118` | on a stream whose lines end in CR LF, which the standard allows, the reader never dispatches anything |
| `Sse.EventAgreesIff` | `crates/vaner-contract/src/sse.rs:129-133` | the same for one event: dropped leading empty lines and trimmed values are all that differs |
| `Sse.ReaderReads` | `crates/vaner-contract/src/sse.rs:111-137` | on any complete lines the reader hands on the squeezed events |
| `Sse.EventTells` | `crates/vaner-contract/src/sse.rs:118-134` | an event is its values, white space trimmed in front, joined by LF from the first non-empty one on; without one it is dropped |
| `Sse.SpaceIff` | `crates/vaner-contract/src/sse.rs:134-134` | the white space trimmed is exactly the 25 characters listed |
| `Sse.StandardReads` | `crates/vaner-contract/src/sse.rs:104-140` | the standard's interpretation, field by field, dispatches each block of data values joined by LF |
| `Sse.StandardEventsPrinted` | `crates/vaner-contract/src/sse.rs:104-140` | the standard's reading of the printed data values gives every list back |
| `Sse.FeedAllIsFeed` | `crates/vaner-contract/src/sse.rs:108-110` | however a stream is cut into chunks, the parser ends up the same |
| `Sse.BadEventLosesOnlyItself` | `crates/vaner-contract/src/sse.rs:119-127` | between any bytes before and after, a stretch of whole events that do not decode, or are of another stage, loses only itself |
| `Sse.BadPayloadLosesOnlyItself` | `crates/vaner-contract/src/sse.rs:119-127` | the same for one printed payload among any others, clean or not |
| `Sse.SentIsPrefix` | `crates/vaner-contract/src/sse.rs:120-125` | what is sent is a prefix of what was delivered |
| `Sse.SentStops` | `crates/vaner-contract/src/sse.rs:120-125` | after the receiver is gone nothing more is sent |
| `Sse.ReceivedIff` | `crates/vaner-contract/src/sse.rs:104-140` | from bytes to receiver: of clean printed payloads, cut into any chunks, exactly those are due that decode to a frame of stage "predictions", in order and with that frame's payload, and the due ones are sent until the receiver is gone |
| `Common.CollectsOnly` | `crates/vaner-contract/src/sse.rs:118-128` | a list told position by position from what each element contributes is determined by that |
| `Sse.StreamReader.DispatchEvent` | `crates/vaner-contract/src/sse.rs:118-128` | a blank line dispatches the collected data, and closes exactly at a failed send; what is wanted is told by `ReceivedIff` |
| `Sse.StreamReader.TakeByte` | `crates/vaner-contract/src/sse.rs:110-138` | the byte loop keeps both buffers and the payloads sent equal to the specification's for all bytes seen |
| `Sse.StreamReader.TakeChunk` | `crates/vaner-contract/src/sse.rs:108-139` | a whole chunk, stopping early when the receiver is gone |
| `Sse.StreamReader.ReadStream` | `crates/vaner-contract/src/sse.rs:108-140` | all chunks of a connection, to its end or until the receiver is gone |
| `Sse.WaitShape` | `crates/vaner-contract/src/sse.rs:58-76` | the waits after 0 to 4 failures in a row are 3, 6, 12, 24 and 48 seconds, and 60 from exactly the fifth on |
| `Sse.Reconnect` | `crates/vaner-contract/src/sse.rs:57-77` | over any outcomes and any closing of the sink: stops exactly at the first loop head that finds the sink closed or the first NotFound, and sleeps after each cycle by the failures in a row it ends |
| `Packing.LexicographicallyBest` | `src/vaner/broker/compressor.py:30-37` | against any selection within the budget, at the first rank where they differ the greedy one holds the artefact |
| `Packing.DroppedDoesNotFit` | `src/vaner/broker/compressor.py:34-37` | no dropped artefact could be added at the end |
| `Packing.GreedyFits` | `src/vaner/broker/compressor.py:34-37` | the kept tokens are within the budget (nothing is kept of a negative one) |
| `Packing.RenderedTokensIff` | `src/vaner/broker/compressor.py:36-40` | the rendered chunks have the tokens counted as used if and only if no dropped rank of positive size shares its key with a kept one |
| `Packing.DuplicateKeyOverrunsBudget` | `src/vaner/broker/compressor.py:23-40` | two artefacts of one key: 12 tokens rendered under a budget of 10 |
| `Packing.OrderByWorth` | `src/vaner/broker/compressor.py:27-28` | every key is packed at the place that counts the artefacts of greater score, and those of equal score listed earlier; a missing score counts as 0.0, and without scores the input order stays |
| `Packing.PackingBest` | `src/vaner/broker/compressor.py:27-37` | told from artefacts and scores: against any choice within the budget, the highest-scored artefact on which the two differ is kept by the code |
| `Packing.BestChoiceUnique` | `src/vaner/broker/compressor.py:27-37` | only one choice within the budget is best in this sense, so that fixes what is kept |
| `Packing.LastCounts` | `src/vaner/broker/compressor.py:20-24` | a key listed twice stands for the tokens and the text of its last artefact |
| `Packing.RenderedTells` | `src/vaner/broker/compressor.py:39-39` | the rendered chunks are those of the kept artefacts, each once, highest score first |
| `Packing.CompressContext` | `src/vaner/broker/compressor.py:9-40` | the loops compute the greedy choice; with distinct keys what is kept is the best choice within the budget by score, used is its tokens, and the chunks are those of the kept artefacts, highest score first |
| `Packing.Pack` | `src/vaner/broker/compressor.py:32-37` | the packing loop computes the greedy choice and its cost |
| `Packing.Render` | `src/vaner/broker/compressor.py:39-39` | the chunks of kept keys, in rank order |
| `Assembly.AssemblePackage` | `src/vaner/broker/assembler.py:47-104` | one decision per artefact with its tokens and reason, the kept ones selected in input order; with distinct keys kept is the best choice within the budget by score and token_used its tokens |
| `Assembly.DecideAll` | `src/vaner/broker/assembler.py:55-93` | the loop's decisions and selections |
| `Assembly.SelectedCollects` | `src/vaner/broker/assembler.py:76-93` | the selections are the kept decisions, position by position, with their keys and tokens |
| `Assembly.SelectedTokensIff` | `src/vaner/broker/assembler.py:55-100` | the selections add up to token_used if and only if no dropped rank of positive size shares its key with a kept one, although one is by input order and the other by rank |
| `Packing.DistinctKeysBalance` | `src/vaner/broker/assembler.py:58-59` | with distinct keys an artefact is decided kept exactly when its rank was packed |
| `Evidence.BuildAssemblyPlan` | `src/vaner/broker/answerable.py:337-377` | the loop over the three groups, with its map of keys seen, makes for each item the decision specified from the items before it, and no decisions when off |
| `Evidence.ApplySafeAssembly` | `src/vaner/broker/answerable.py:398-418` | with nothing marked the groups stay; otherwise each keeps the items that repeat none in any earlier place |
| `Evidence.UniquesDistinct` | `src/vaner/broker/answerable.py:408-416` | surviving keys are unique |
| `Evidence.FreshKeys` | `src/vaner/broker/answerable.py:408-416` | surviving keys cover all the original ones |
| `Evidence.UniquesAreFirsts` | `src/vaner/broker/answerable.py:408-416` | the survivors are exactly the first occurrences, in order |
| `Evidence.PlanExecutedIff` | `src/vaner/broker/answerable.py:65-78` | a briefing removes exactly the items its plan marks if and only if, in the safe mode, nothing is marked or no item repeats a pathless one, and, in the active mode, nothing is marked |
| `Evidence.MarkedIff` | `src/vaner/broker/answerable.py:345-350` | an item is marked exactly when the mode removes duplicates and it repeats an item whose path is not empty |
| `Evidence.VerdictTells` | `src/vaner/broker/answerable.py:345-377` | each verdict, origin and delta with its exact condition: duplicate of an earlier item with a path, by mode; otherwise protected as direct, in conflict or from a prediction; otherwise demoted as lower unless active; otherwise included |
| `Evidence.AssembleEvidence` | `src/vaner/broker/answerable.py:65-78` | all groups are planned, and only in the safe mode is the plan carried out |
| `Evidence.PathlessRemovedUnmarked` | `src/vaner/broker/answerable.py:348-349` | a concrete pathless duplicate that is removed unmarked |
| `Evidence.TokensBalance` | `src/vaner/broker/answerable.py:368-368` | where the plan is executed, tokens before = tokens after minus the sum of the deltas |
| `EvidenceCaps.CapBounds` | `src/vaner/broker/answerable.py:565-580` | with min_items at most 1: the first item is kept, trimmed if over budget; the rest is an untrimmed subsequence; the kept tokens are within the budget or the trimmed first item is all; unless the budget is filled, an item equal to none of those kept would not fit |
| `EvidenceCaps.CapTells` | `src/vaner/broker/answerable.py:565-580` | item by item: the first is kept, trimmed to the budget and to no less than 80 tokens where it does not fit; any other is kept if and only if the tokens kept before it leave something of the budget and it fits into that |
| `EvidenceCaps.ForcedItemOverrunsIff` | `src/vaner/broker/answerable.py:570-575` | an observation on a setting no caller uses: with min_items 2 a second item is forced in, and the bound fails if and only if its trimmed text is more than the first has left |
| `EvidenceCaps.CapItems` | `src/vaner/broker/answerable.py:565-580` | the loop with its two exits computes that choice, and kept + dropped = input |
| `EvidenceCaps.TransportCapBounds` | `src/vaner/broker/answerable.py:583-652` | each group keeps a prefix, the first direct item is at most trimmed and never dropped, and the kept tokens are within the limit unless the trimmed first direct item is all that is kept |
| `EvidenceCaps.TransportCapIsLongest` | `src/vaner/broker/answerable.py:619-637` | each prefix is as long as it can be: the next item of its group is too much for what the kept ones leave |
| `EvidenceCaps.FitIsMaximal` | `src/vaner/broker/answerable.py:619-623` | the items a group keeps fit together and the next one does not |
| `EvidenceCaps.KeepGroup` | `src/vaner/broker/answerable.py:610-637` | the loop keeps that prefix, and kept + dropped = input |
| `EvidenceCaps.CapByTransportPriority` | `src/vaner/broker/answerable.py:583-652` | the three groups in turn share one limit; for each, kept + dropped = input |
| `Selector.SelectArtefacts` | `src/vaner/broker/selector.py:531-636` | the loops select the first top_n of the stable descending ranking restricted to scores of at least 0.45 of the best, and with distinct keys leave each candidate with its reason: excluded and why, below the threshold, or ranked below the first top_n |
| `Selector.SelectRows` | `src/vaner/broker/selector.py:612-629` | the branch for a new corpus never changes what is selected, for any top_n, negative ones included |
| `Selector.SelectedIff` | `src/vaner/broker/selector.py:612-636` | told from the candidates: of those admitted exactly those are selected that fewer than top_n beat (by score, then position) and that reach 0.45 of the best score, which is not negative; each stands at the place that counts those that beat it |
| `Selector.SelectedFrom` | `src/vaner/broker/selector.py:612-636` | every place of the selection is held by such a candidate |
| `Selector.WhichReason` | `src/vaner/broker/selector.py:533-635` | the reason every candidate ends up with, told from the selection: an unselected one is below the threshold if the selection is not full or no score reaches 0, and otherwise keeps what was known or came after the first top_n |
| `Selector.ReasonRest` | `src/vaner/broker/selector.py:630-635` | later reasons never overwrite earlier ones; the new ones say that others came first |
| `Selector.ReasonsIff` | `src/vaner/broker/selector.py:533-635` | with distinct keys and a fresh map, exactly the unselected candidates have a reason |
| `Selector.SelectionIsPrefix` | `src/vaner/broker/selector.py:612-636` | the selection is a prefix of the ranking, unless the best score is negative: then nothing is selected |
| `Selector.CompetitiveRun` | `src/vaner/broker/selector.py:615-620` | the competitive rows are a leading run of the ranking |
| `Focus.AllowedIff` | `src/vaner/focus.py:634-773` | proactive work is allowed if and only if the mode is auto, this repository is not paused, and it is pinned, or there is no pin and a live grant names it, or there is neither and some eligible client hints it with confidence 0.70 or more |
| `Focus.GateReason` | `src/vaner/focus.py:825-859` | for each defer reason, exactly when it is given, told from preferences and observations; queued exactly when the rule holds and low power does not forbid the class |
| `Focus.StateTells` | `src/vaner/focus.py:644-773` | status, workspace, who chose it, client and reasons shown, each told from preferences and observations; the client is the leading one of those that pass the bar |
| `Focus.ModesTell` | `src/vaner/focus.py:372-396` | which names set which mode and resources, what is refused, and that nothing else changes |
| `Focus.WorkspacesTell` | `src/vaner/focus.py:457-515` | what work-here, pin, unpin, pause, resume and pause-all store and clear: the path given or this workspace, the grant until the seconds asked for and at least 60, the mode and the pauses |
| `Focus.RouteAcceptedIff` | `src/vaner/focus.py:417-449` | a route is refused exactly for an unknown policy, an unsupported client or unknown resources, and then nothing is saved |
| `Focus.RouteTells` | `src/vaner/focus.py:413-435` | what an accepted route stores and clears of pin, grant and mode; seconds not given or 0 stand for 1800 |
| `Focus.RouteChoosesClient` | `src/vaner/focus.py:437-449` | what it stores of client and resources |
| `Focus.PinDecides` | `src/vaner/focus.py:467-473` | after pinning, work is allowed exactly where this workspace was pinned and is not paused, whatever clients are seen and however late |
| `Focus.WorkHereDecides` | `src/vaner/focus.py:457-465` | with nothing pinned a work-here grant decides in the same way until its time is over, and then the clients do |
| `Focus.PauseStops` | `src/vaner/focus.py:484-515` | pausing this workspace or everything stops all work, and resuming takes a pause of the workspace back |
| `Focus.BestIsBest` | `src/vaner/focus.py:687-705` | the client that owns the candidate is the earliest most confident eligible one |
| `Focus.ConfidentIff` | `src/vaner/focus.py:706-710` | it passes the bar exactly when some eligible client does |
| `Focus.OneHigh` | `src/vaner/focus.py:706-718` | at most one workspace is ever confident, so the branch for several is dead |
| `Focus.AlwaysCoherent` | `src/vaner/focus.py:368-515` | over every run from the defaults: pause_all iff the mode is paused, no grant path iff its expiry is 0, the epoch never decreases |
| `Focus.EpochIff` | `src/vaner/focus.py:368-515` | an action raises the epoch by exactly one when it changes any preference or always counts, and leaves it otherwise and on every error |
| `Focus.LookOnlyExpires` | `src/vaner/focus.py:635-640` | looking at the state changes nothing but an expired grant, and not the epoch |
| `Focus.FocusManager.Candidates` | `src/vaner/focus.py:687-705` | the loops over clients and hints never hold more than this one workspace |
| `Focus.FocusManager.BuildState` | `src/vaner/focus.py:634-773` | the method decides as the specification does, after expiring the grant |
| `Focus.FocusManager.SetModeTo` | `src/vaner/focus.py:372-386` | new preferences and epoch are those of the specified action |
| `Focus.FocusManager.SetResourceModeTo` | `src/vaner/focus.py:388-396` | as above |
| `Focus.FocusManager.SetRoutePreferences` | `src/vaner/focus.py:398-455` | as above, with all its partial updates and its errors, after which nothing is saved |
| `Focus.FocusManager.StartWorkHere` | `src/vaner/focus.py:457-465` | as above; the grant lasts at least 60 seconds |
| `Focus.FocusManager.PinTo` | `src/vaner/focus.py:467-473` | as above |
| `Focus.FocusManager.UnpinNow` | `src/vaner/focus.py:475-482` | as above |
| `Focus.FocusManager.PauseWorkspace` | `src/vaner/focus.py:484-492` | as above |
| `Focus.FocusManager.ResumeWorkspace` | `src/vaner/focus.py:494-508` | as above |
| `Focus.FocusManager.PauseEverything` | `src/vaner/focus.py:510-515` | as above |
| `Replay.ReplayMeaning` | `src/vaner/events/predictions.py:206-236` | after any log a prediction's view is exactly what the log says from its last enrolment on: last readiness or staled event, last progress, kinds reported, greatest time; never enrolled, no view |
| `Replay.OrderTells` | `src/vaner/events/predictions.py:206-219` | the predictions are listed in the order in which they were first enrolled, each once |
| `Replay.ActiveTells` | `src/vaner/events/predictions.py:246-248` | the active ones are those that are not stale, in that order |
| `Replay.InterleavingsAgree` | `src/vaner/events/predictions.py:206-236` | logs that give each prediction the same events in the same order rebuild the same views, however interleaved |
| `Replay.ReplayComposes` | `src/vaner/events/predictions.py:238-240` | replaying a concatenation is replaying its parts in turn |
| `Replay.EnrolmentForgets` | `src/vaner/events/predictions.py:207-219` | an enrolment makes everything before it irrelevant |
| `Replay.LateJoinerKnows` | `src/vaner/events/predictions.py:220-223` | a client that joins late has views of exactly the predictions enrolled since, and those are right |
| `Replay.SnapshotRebuilder.Apply` | `src/vaner/events/predictions.py:206-236` | the object takes one event as specified |
| `Replay.SnapshotRebuilder.ApplyMany` | `src/vaner/events/predictions.py:238-240` | the loop replays the whole list |
| `Replay.SnapshotRebuilder.Active` | `src/vaner/events/predictions.py:246-248` | the predictions not stale, in order |
| `Registry.ReplayMirrors` | `src/vaner/intent/prediction_registry.py:121-425` | over every run of registry operations, replaying the emitted log gives the same population in the same order, the same readiness, tokens and calls; evidence short by exactly the unreported adoptions; at most five readiness changes and one staled notice; no event ever skipped or out of place |
| `Registry.ActiveAgreeIff` | `src/vaner/intent/prediction_registry.py:766-773` | the rebuilt active list is the registry's if and only if no live prediction has been adopted; leaving out those with an adoption among their kinds always gives the registry's |
| `Registry.AdoptedStaysListed` | `src/vaner/intent/prediction_registry.py:288-329` | a concrete run: enrolled and adopted, and the two lists differ |
| `Registry.CatchUpIff` | `src/vaner/intent/prediction_registry.py:247-330` | a client's counters, once right, go wrong at an operation if and only if, told from the state before it, it completes an attached scenario, adopts the prediction, or recomputes its budget to another value |
| `Registry.SweepHitsOnce` | `src/vaner/intent/prediction_registry.py:411-696` | a sweep over the population hits each prediction exactly once |
| `Registry.CompletionGoesUnseen` | `src/vaner/intent/prediction_registry.py:247-253` | a concrete run: enrolled, a scenario attached and completed, and the counters are wrong from then on |
| `Registry.ProgressCatchesUp` | `src/vaner/intent/prediction_registry.py:255-286` | every progress report makes all five counters right again |
| `Registry.RunForward` | `src/vaner/intent/prediction.py:62-74` | over every run readiness never moves back, stale stays stale, spend never shrinks, adopted stays adopted, nothing leaves the registry |
| `Registry.FloorIff` | `src/vaner/intent/prediction_registry.py:731-757` | an operation pushes a live prediction below the weight floor if and only if it is a stalled item whose prediction weighs less than twice the floor |
| `Registry.StalledBelowFloor` | `src/vaner/intent/prediction_registry.py:748-751` | a concrete run: enrolled at the floor, its item stalls, and a live prediction is below the floor |
| `Registry.RebalanceShares` | `src/vaner/intent/prediction_registry.py:440-468` | after a rebalance on any evidence all live weights are at least the floor and add up to between 1 and 1 plus a floor per live prediction |
| `Registry.RebalanceOrder` | `src/vaner/intent/prediction_registry.py:461-468` | more yield never means less weight |
| `Registry.RingHoldsNewest` | `src/vaner/intent/prediction_registry.py:370-379` | however many thinking traces come, the buffer is the newest part of all of them, shortened |
| `RegistryRuns.CountersTell` | `src/vaner/intent/prediction_registry.py:236-329` | over every run: a prediction is in the registry if and only if it was enrolled, and its tokens, calls, evidence, adoption, scenarios and completions are the sums of what was recorded about it since |
| `RegistryRuns.EnrolTells` | `src/vaner/intent/prediction_registry.py:121-149` | an enrolment starts queued at its weight, or 0.05 if that is more, with that share of the pool in whole tokens, at least 128, as its budget |
| `RegistryRuns.TransitionTells` | `src/vaner/intent/prediction.py:62-74` | a prediction moves one stage on, or to stale from any other stage, which is reported; any other move but to where it is raises and changes nothing |
| `RegistryRuns.InvalidationTells` | `src/vaner/intent/prediction_registry.py:411-696` | what an invalidation of each kind does to each prediction of a reached registry: those it concerns are staled, but a file change first halves the weight and a category shift takes 0.1 off, and those stale only below 0.05 |
| `RegistryRuns.HashesTell` | `src/vaner/intent/prediction_registry.py:540-554` | a file change drops draft and briefing, takes over known new hashes and forgets the other changed paths |
| `RegistryRuns.ItemTells` | `src/vaner/intent/prediction_registry.py:731-757` | an item's new state acts on the first prediction enrolled that is anchored to it: completion adopts it, a contradiction stales it at a quarter of its weight, a stall halves its weight |
| `RegistryRuns.ArtefactTells` | `src/vaner/intent/prediction_registry.py:348-394` | what an artefact leaves in the entry |
| `RegistryRuns.ArtefactReports` | `src/vaner/intent/prediction_registry.py:395-400` | each kind given is reported once, in a fixed order |
| `RegistryRuns.SharesTell` | `src/vaner/intent/prediction_registry.py:440-468` | after a rebalance on any evidence those above the floor weigh in proportion to the evidence each has earned per token spent |
| `RegistryRuns.NoEvidence` | `src/vaner/intent/prediction_registry.py:455-459` | there is something to share exactly when a live prediction has positive evidence |
| `RegistryRuns.RingTells` | `src/vaner/intent/prediction_registry.py:370-379` | place by place, the ring buffer holds the newest ten traces, or all, oldest first |
| `RegistryRuns.ShortenedTells` | `src/vaner/intent/prediction_registry.py:371-373` | a trace of up to 32000 characters is kept whole, of a longer one the first 32000 without the white space at their end, and an ellipsis |
| `LiveRegistry.PredictionRegistry.Enroll` | `src/vaner/intent/prediction_registry.py:121-149` | refuses a known id; otherwise the step of the specification, event included |
| `LiveRegistry.PredictionRegistry.MoveReadiness` | `src/vaner/intent/prediction_registry.py:794-808` | raises exactly on an illegal move and then changes nothing; staling emits two events |
| `LiveRegistry.PredictionRegistry.Transition` | `src/vaner/intent/prediction_registry.py:406-409` | as above, with KeyError for an unknown id |
| `LiveRegistry.PredictionRegistry.AttachScenario` | `src/vaner/intent/prediction_registry.py:236-245` | new scenarios only; the first moves a queued prediction to grounding |
| `LiveRegistry.PredictionRegistry.CompleteScenario` | `src/vaner/intent/prediction_registry.py:247-253` | counts an attached scenario and tells nobody |
| `LiveRegistry.PredictionRegistry.RecordCall` | `src/vaner/intent/prediction_registry.py:255-270` | counts a call and its tokens, never negative, and reports |
| `LiveRegistry.PredictionRegistry.RecordEvidence` | `src/vaner/intent/prediction_registry.py:272-286` | adds to the score and reports |
| `LiveRegistry.PredictionRegistry.RecordAdoption` | `src/vaner/intent/prediction_registry.py:288-329` | adds 1, marks spent, reports only an artefact; unknown ids are ignored |
| `LiveRegistry.PredictionRegistry.AttachArtifact` | `src/vaner/intent/prediction_registry.py:348-400` | stores what is given, the trace in the ring buffer, and reports one kind each |
| `LiveRegistry.PredictionRegistry.Invalidate` | `src/vaner/intent/prediction_registry.py:411-696` | one sweep over the population for a context shift or an invalidation signal |
| `LiveRegistry.PredictionRegistry.ApplyItemStateDelta` | `src/vaner/intent/prediction_registry.py:731-757` | acts on the first prediction anchored to the item |
| `LiveRegistry.PredictionRegistry.Rebalance` | `src/vaner/intent/prediction_registry.py:440-468` | the two loops give every live prediction its floored share |
| `Boosts.SyncsForget` | `src/vaner/engine.py:5213-5227` | over any run of syncs each multiplier is the original one, raised to 0.3 where an earlier sync boosted, with min(2.0, + 0.1 per mention) of the last facts on top; repeats and clamping included |
| `Boosts.ExactIff` | `src/vaner/engine.py:5213-5227` | the last facts give what they would on the original table if and only if every source boosted before started at 0.3 or above, or is boosted to the ceiling anyway |
| `Boosts.RestoredIff` | `src/vaner/engine.py:5213-5217` | syncing no facts restores the original table if and only if no boosted source started below 0.3 |
| `Boosts.RestartsCompound` | `src/vaner/engine.py:5693-5701` | across restarts the multipliers are saved and loaded (clamped to 0.3 to 2.0) but the deltas are not: the boost compounds once per restart up to the ceiling |
| `BoostFeedback.AlwaysInRange` | `src/vaner/intent/scoring_policy.py:144-152` | every table that loads, feedback and syncs reach lies between 0.3 and 2.0, and no applied boost is negative |
| `BoostFeedback.SyncsExact` | `src/vaner/engine.py:5213-5227` | so on every reached table undo is exact: after any further syncs the last facts give what they would have given at once, and none restore the table |
| `BoostFeedback.UndoStaysExact` | `src/vaner/engine.py:5213-5217` | over every run that writes a source by feedback or load only while no boost of it is applied, taking the boosts back leaves what the run without syncs has |
| `BoostFeedback.FeedbackExactIff` | `src/vaner/intent/scoring_policy.py:144-152` | feedback on a source right after a sync keeps undo exact if and only if it was not boosted, was at the ceiling, or the clamps happen to make up for it; a hit below the ceiling leaves 0.005 too much for every mention |
| `BoostFeedback.LoadExactIff` | `src/vaner/engine.py:5550-5555` | a policy loaded right after a sync keeps undo exact if and only if the source was not boosted, was at the ceiling, or loads at the bottom |
| `BoostFeedback.HitKeepsPartOfBoost` | `src/vaner/intent/scoring_policy.py:144-148` | a concrete run: preferred, hit, no longer preferred, and the source keeps 1.055 where the hit alone gives 1.05 |
| `Boosts.UndoneCarries` | `src/vaner/engine.py:5213-5217` | taking back a sync restores the base, raised to 0.3 where it boosted |
| `Boosts.SourceBoosts.Undo` | `src/vaner/engine.py:5213-5217` | the first loop, in any order of the sources |
| `Boosts.SourceBoosts.Sync` | `src/vaner/engine.py:5213-5227` | both loops compute the specified table and deltas |
| `Boosts.SourceBoosts.RecordFeedback` | `src/vaner/intent/scoring_policy.py:144-151` | takes a multiplier, 1.0 if there is none, by 1.05 up to 2.0 or by 0.95 down to 0.3, and leaves the deltas alone |
| `Splice.SpliceTwiceIff` | `scripts/sync_agents_primer.py:67-76` | splicing twice is splicing once if and only if the first end marker follows the first start marker and the body has no end marker; otherwise the text grows |
| `Splice.CheckPassesIff` | `scripts/sync_agents_primer.py:79-92` | --check passes if and only if the text holds the rendered block with no marker before it and the body has no end marker |
| `Splice.SyncThenCheckIff` | `scripts/sync_agents_primer.py:79-95` | after a sync --check passes, and a second sync changes nothing, if and only if the text was well marked; --check never writes |
| `Splice.OutsideUnchanged` | `scripts/sync_agents_primer.py:67-76` | a splice replaces the first block and keeps the text around it |
| `Splice.Apart` | `scripts/sync_agents_primer.py:32-33` | two markers never overlap |
| `Splice.BlockMarkers` | `scripts/sync_agents_primer.py:62-64` | where the first markers of a rendered block are, whatever follows it |
| `Splice.PrimerProper` | `scripts/sync_agents_primer.py:32-33` | the two markers of the script have the properties the lemmas need |
| `Splice.HeadingPlain` | `scripts/sync_agents_primer.py:62-63` | no version number puts a marker into the opening lines |
| `Splice.Find` | `scripts/sync_agents_primer.py:68-69` | the first occurrence, or -1 when there is none |
| `Splice.BlockTells` | `scripts/sync_agents_primer.py:54-64` | the opening line of the block names the version in plain decimal: read back it is that number |
| `Splice.SyncTells` | `scripts/sync_agents_primer.py:67-95` | a run stops, leaving the file, exactly when a marker is missing; otherwise a plain run writes the spliced text and a check leaves the file |

## Left out

- Everything outside these parts: HTTP, MCP, CLI, cockpit and editor surfaces, stores, and model calls.
- Worker: the status texts and files, the periodic schedule, the stop flag; a task is cancelled in one step
  and then ends, so the timing of asyncio's cancellation and the liveness of the loop are not covered.
- Endpoint pool: `pick_by_economics`, building entries from configuration, and the call itself; a weight is
  given already rounded.
- EndpointPool.ExplorationEndpointPool.RecordFailure: the two clock readings of `_record_failure`, for the time of
  the failure and for the cooldown, are one.
- Dispatcher: which branches the model proposes, their scores, and whether the minimum priority, size and
  overlap gates admit them are free choices, so every theorem holds for all of them; the gate on staled
  predictions does not concern branches, which carry none. A task that raises, the sleep between turns, and
  coverage arithmetic are not modelled; whether enough files are covered is a free choice. Which of several best
  scenarios the transition system pops is free; the frontier object pops the oldest.
- Frontier: seeding, feedback and coverage. Its heap is a set from which the least entry is taken; the heap
  array itself is modelled for the worker's queue only.
- Reader: bytes are characters; UTF-8 decoding and a byte-order mark are excluded, comparison with the standard is
  for lines without CR only, JSON
  decoding is an arbitrary function, and `event`, `id` and `retry` fields are ignored as the code does.
- Packing and evidence: token counts are arbitrary naturals (the count of a trimmed text an arbitrary
  function), excerpts and de-duplication keys arbitrary strings; the totals in the assembly metadata and
  `_mark_transport_limited` are not modelled.
- Selector: the score of an artefact is an arbitrary real, and whether it is excluded as private or by path
  an arbitrary flag.
- Focus: paths are taken as resolved and workspace ids as injective; reading and writing the preferences file,
  detection of client processes, `record_observation`, and the routing and resource reports are left out.
- Registry: `enroll_batch`'s initial weights and the arm of `merge` that enrols (its other arm is `Refresh`),
  the queue of adoption descriptors, invalidation reasons, update times and
  structured specs; each operation reads the clock once. Deep-run maturation writes to predictions past
  the registry and is not modelled.
- Boosts: the feedback rates are the defaults 1.05 and 0.95, which a loaded policy can replace; the frontier's own copy
  of the multipliers is not modelled. The restart lemma takes the policy as saved after the sync.
  Where no saved multiplier can be read the code keeps the shipped defaults, the model an empty table (every source 1.0).
- Splice: reading and writing the file, and the guidance loader.
- Floating point is `real` throughout, so rounding is not covered.
