# Verified model of the agent runtime's coordination core

The repository is a chat-agent runtime. This project models, in Dafny 4.11, the parts of it whose correctness depends
on algorithms, protocols or long runs, and proves what they promise.

| file | models |
|---|---|
| `digraph.dfy`, `dependency_graph.dfy`, `critical_paths.dfy`, `execution_schedule.dfy`, `schedule_reading.dfy` | the dependency analyser and the schedule checker of the architecture plan: Kahn's algorithm, longest paths, reachability, capacity slots |
| `turn_server.dfy`, `voice_loop.dfy` | the continuous voice scheduler: an abstract first-in first-out server with its runs, and the class of shared variables whose atomic steps refine it |
| `capability_planner.dfy`, `exposure_adapter.dfy`, `tool_exposure.dfy` | tool eligibility, the greedy capability cover, its fitting into a schema budget, and both in sequence |
| `text.dfy`, `cycle_search.dfy`, `plan_ledger.dfy`, `plan_ledger_repository.dfy` | the plan ledger: item rules, depth-first cycle check, status machine, and the idempotent compare-and-swap log |
| `checkpoint_store.dfy` | per-turn checkpoints: the stage table and saves with bounded retry under interference |
| `artifact_evidence.dfy`, `artifact_verifier.dfy`, `artifact_reading.dfy` | verification of claimed file changes over arbitrary tool-call histories: execution evidence and criteria, claims and the verdict, and its exact meaning |
| `outcome_verifier.dfy`, `recovery_policy.dfy` | aggregation of criterion receipts, the recovery decision and its budget along chains |
| `generation_policy.dfy`, `compaction.dfy` | merging a continuation, the continuation budget, and history compaction |
| `collections.dfy`, `sorting.dfy` | shared vocabulary: results, duplicate-free sequences, filters, insertion sort by a total order |

How to read it: operations the source performs by updating state are methods (classes where the source has shared
variables), each proved against a specification function or a declarative predicate; the theorems are lemmas about
those specifications. Graph algorithms are generic in the vertex type. Concurrency is modelled by atomic steps between
the source's suspension points: the voice scheduler as runs over such steps, the two event logs as saves whose
suspensions are filled with arbitrary activity of other writers. For every main operation one theorem reads its outcome
off the inputs alone, without the functions the operation is specified by.

Four findings where the code does less than a reader may expect; each has its exact condition and a failing input:

- A ledger saved with a blank or over-long timestamp can never be loaded or saved again
  (`LoadsBackIffTimestampClean`, `UnreadableForEver`; `BlankTimestampIsLost`); a checkpoint with a blank timestamp or
  padded ids is lost likewise (`LoadsBackIffReadable`; `PaddedOrUndatedIsLost`).
- A merged continuation is not shortest when the texts overlap by one or two characters only (`MergeIsShortestIff`;
  `ShortOverlapIsKeptTwice`).
- Compaction does not always meet its budget: it fails to exactly when the last message alone is too costly
  (`OverBudgetIff`; `OneTokenIsNotMet`).
- The recovery policy raises on more than sixteen failed criteria, on repeated ids of failed criteria, on an operation
  id longer than 128 characters, and on a blank or over-long fresh id when a replacement reads it, and otherwise
  answers (`AnswersIff`; `RepeatedIdsRaise`, `LongOperationIdRaises`).

The stale-chunk skip of the playback worker, the branch that clears the voice queue, the "required but none verified"
case of the verdict, both authorization errors of the exposure adapter and three reasons of the recovery coordinator are
in the code; the proofs show that they are never reached.

## Model

| member | source | states |
|---|---|---|
| `DependencyGraph.BuildAdjacency` | docs/architecture/render_agent_foreman_briefs.py:54-62 | the adjacency lists of an edge list are built exactly when every edge joins known nodes; they keep edge order and multiplicity |
| `DependencyGraph.CountDown` | docs/architecture/render_agent_foreman_briefs.py:84-87 | counting one node's successors down lowers each indegree by its multiplicity and adds exactly those that reach zero to the ready list, once each |
| `DependencyGraph.TopologicalOrder` | docs/architecture/render_agent_foreman_briefs.py:76-89 | every node is placed if and only if the graph has no directed cycle; each choice is the eligible node with the smallest declared position |
| `DependencyGraph.GreedyIsLexicographicallyLeast` | docs/architecture/render_agent_foreman_briefs.py:76-89 | the order is a linear extension of the edges, and no linear extension is lexicographically smaller by declared position |
| `CriticalPaths.LongestPaths` | docs/architecture/render_agent_foreman_briefs.py:91-108 | for every node the table holds the true longest-path vertex count, `earliest` one less, and exactly the longest paths ending there, each as often as its parallel edges allow |
| `CriticalPaths.WeightOfDistinctEdges` | docs/architecture/render_agent_foreman_briefs.py:103-108 | with distinct edges every path has multiplicity one |
| `CriticalPaths.CriticalListOfDistinctEdges` | docs/architecture/render_agent_foreman_briefs.py:110-116 | with distinct edges the critical paths are all maximum-length directed paths, each listed once |
| `CriticalPaths.CriticalListUnique` | docs/architecture/render_agent_foreman_briefs.py:110-116 | any two correct listings of the critical paths are permutations of each other |
| `CriticalPaths.AnalyzeAcyclic` | docs/architecture/render_agent_foreman_briefs.py:76-117 | an analysis is returned exactly for acyclic non-empty graphs: earliest waves are longest-path lengths minus one, critical paths are sound, complete and sorted |
| `CriticalPaths.AnalyzeDependencyGraph` | docs/architecture/render_agent_foreman_briefs.py:46-117 | each rejection names a defect the graph has; an accepted graph has none and gets the correct analysis |
| `CriticalPaths.DefectIs` | docs/architecture/render_agent_foreman_briefs.py:46-117 | the first defect, read off nodes, edges and declared dependencies alone: an edge list is refused exactly for what each error says |
| `CriticalPaths.AnalysisMeans` | docs/architecture/render_agent_foreman_briefs.py:91-117 | the analysis, read off the edge list: `earliest` plus one is the length of a longest path into each node, and the critical paths are all longest paths, with multiplicity, in lexicographic order |
| `Sorting.LexMeans` | docs/architecture/render_agent_foreman_briefs.py:110-116 | lists are ordered with prefixes first and otherwise by their first difference |
| `Sorting.TextMeans` | mochi/agents/capability_planner.py:604-613 | strings are ordered by their first differing code point, smaller first |
| `ExecutionSchedule.ReachableFrom` | docs/architecture/render_agent_foreman_briefs.py:143-150 | the worklist collects exactly the packages reachable by a non-empty path |
| `ExecutionSchedule.EveryPackageJoins` | docs/architecture/render_agent_foreman_briefs.py:137-152 | the loop succeeds exactly when every other package reaches the release package |
| `ExecutionSchedule.PlacePackages` | docs/architecture/render_agent_foreman_briefs.py:194-209 | slots are placed exactly when capacities, roles and uniqueness hold; the placement and the Main order are the slots' own |
| `ExecutionSchedule.CheckCapacitySchedule` | docs/architecture/render_agent_foreman_briefs.py:188-218 | the capacity schedule is accepted exactly when it meets its declarative description |
| `ExecutionSchedule.CheckQueueAndLanes` | docs/architecture/render_agent_foreman_briefs.py:170-187 | queue and lanes are accepted exactly when they cover the Main and the worker packages once each |
| `ExecutionSchedule.ValidateSchedule` | docs/architecture/render_agent_foreman_briefs.py:120-219 | the validator accepts exactly the plans that meet the declarative reading `Accepted` |
| `ScheduleReading.AcceptedIff` | docs/architecture/render_agent_foreman_briefs.py:120-219 | acceptance read off the plan file alone: dependencies equal edges, waves equal longest paths, all paths lead to the release, metrics are the counts, queue, lanes and slots list each package once in its role, and edges run forward through the slots |
| `ExecutionSchedule.LoneReleaseIsAccepted` | docs/architecture/render_agent_foreman_briefs.py:120-219 | acceptance can be met: the plan of the release package alone is accepted |
| `ExecutionSchedule.ReleaseIsTheUniqueSink` | docs/architecture/render_agent_foreman_briefs.py:134-152 | in an accepted plan the release package exists and is the only sink |
| `ExecutionSchedule.CriticalPathsEndInRelease` | docs/architecture/render_agent_foreman_briefs.py:134-168 | every critical path of an accepted plan ends in the release package |
| `ExecutionSchedule.ReachedPackagesComeLater` | docs/architecture/render_agent_foreman_briefs.py:194-218 | what a package reaches sits in a strictly later slot |
| `ExecutionSchedule.ReleaseIsLast` | docs/architecture/render_agent_foreman_briefs.py:194-218 | the release package sits in a strictly later slot than every other one |
| `ExecutionSchedule.SlotsRespectWaves` | docs/architecture/render_agent_foreman_briefs.py:125-132 | no package is scheduled before its wave |
| `ExecutionSchedule.ScheduleIsAsLongAsTheGraphIsDeep` | docs/architecture/render_agent_foreman_briefs.py:194-218 | there are at least as many slots as any directed path has packages |
| `ExecutionSchedule.CapacityBoundsSlots` | docs/architecture/render_agent_foreman_briefs.py:194-211 | slots times capacity bounds the number of packages of each role |
| `ExecutionSchedule.MainQueueIsLinearExtension` | docs/architecture/render_agent_foreman_briefs.py:170-218 | the Main queue is a linear extension of reachability among Main packages |
| `TurnServer.StepKeepsInv` | mochi/main.py:2684-2876 | every atomic step of recorder, turn task and playback worker keeps the scheduler invariant |
| `TurnServer.EndpointEffect` | mochi/main.py:2758-2873 | an endpoint accepts exactly a non-empty utterance that both limits leave room for, starts it exactly when no turn runs, and stops the recording exactly when the last permitted turn runs |
| `TurnServer.SettleEffect` | mochi/main.py:2776-2789 | a turn ends exactly when its stream has ended and all its sound was played, and the oldest waiting utterance follows |
| `TurnServer.RunsKeepInv` | mochi/main.py:2684-2876 | the invariant holds in every state of every interleaving |
| `TurnServer.RunsExtendHistories` | mochi/main.py:2684-2876 | accepted utterances, emitted and played chunks and finished turns only ever grow |
| `TurnServer.IdleRunsAnsweredEverything` | mochi/main.py:2776-2789 | in every idle state each accepted utterance got its own turn, finished once, and all of its sound was played in order |
| `TurnServer.BusyIsNotStuck` | mochi/main.py:2869-2876 | while a turn runs some task other than the recorder can move |
| `TurnServer.StepsProgress` | mochi/main.py:2791-2820 | every non-recorder step decreases a well-founded rank, so the idle wait is released |
| `VoiceLoop.Loop.StartTurn` | mochi/main.py:2746-2756 | a started turn gets the next number, becomes active and clears the idle event |
| `VoiceLoop.Loop.MaybeStartNextTurn` | mochi/main.py:2765-2774 | the oldest queued utterance starts when no turn is active; the branch that drops the queue is never taken in a valid state |
| `VoiceLoop.Loop.FinalizeTurnIfReady` | mochi/main.py:2776-2789 | a turn is released once its stream is done and its chunks are played; idle is set exactly when nothing is left |
| `VoiceLoop.Loop.OnEndpoint` | mochi/main.py:2864-2873 | over the loop's own variables: an utterance is accepted if and only if it is not empty, fewer than eight wait and a turn is left for it (with no limit always); it is spoken at once when no turn is active and queued last otherwise; the recording stops exactly at the last permitted turn |
| `VoiceLoop.Loop.OnRecordingEnd` | mochi/main.py:2875-2875 | the end of the recording changes nothing else: no utterance is left waiting for a turn |
| `VoiceLoop.Loop.OnTurnEvent` | mochi/main.py:2791-2813 | an event adds its chunk to the playback queue exactly when it is non-empty sound and playback is on |
| `VoiceLoop.Loop.OnTurnEnd` | mochi/main.py:2814-2820 | the end of a stream ends the turn exactly when none of its chunks is pending; then the oldest waiting utterance is spoken next, or the loop is idle |
| `VoiceLoop.Loop.OnPlaybackGet` | mochi/main.py:2726-2731 | the worker takes the oldest chunk and plays it; it always belongs to the active turn, so no chunk is skipped |
| `VoiceLoop.Loop.OnChunkPlayed` | mochi/main.py:2732-2744 | a played chunk ends the turn exactly when it was the last pending one of a finished stream; then the oldest waiting utterance is spoken next, or the loop is idle |
| `VoiceLoop.Loop.BusyLoopIsNotStuck` | mochi/main.py:2869-2876 | while the idle event is clear one of the tasks can move |
| `VoiceLoop.Loop.IdleLoopAnsweredEverything` | mochi/main.py:2776-2789 | when the idle event is set the queues are empty, turn i processed the i-th utterance and everything was played |
| `VoiceLoop.Loop.RunUntilIdle` | mochi/main.py:2875-2876 | after the recording, running the tasks in any order terminates with the idle event set |
| `VoiceLoop.Loop.ValidLoopFacts` | mochi/main.py:2746-2789 | over the loop's own variables: idle is set exactly when no turn is active and nothing is queued, the limits hold, the dropping branch is dead, and queued or playing sound is the active turn's |
| `CapabilityPlanner.EligibleIffPermitted` | mochi/agents/capability_planner.py:379-454 | a tool is eligible exactly when one of its capabilities is asked for (or safe, as a fallback) and granted by session, profile and environment, and no list, refusal, mutation, execution, clarification or side-question rule excludes it, all read off contract, policy and tool |
| `CapabilityPlanner.EligibilityIsAntitone` | mochi/agents/capability_planner.py:379-454 | shrinking capabilities or the allowlist, or growing denials or refusals, never makes a tool eligible |
| `CapabilityPlanner.MinimalExposure` | mochi/agents/capability_planner.py:593-618 | the in-place greedy loop selects the greedy cover of the exposable tools |
| `CapabilityPlanner.BestCandidate` | mochi/agents/capability_planner.py:604-613 | sorting the candidates and taking the first picks the unique best one |
| `CapabilityPlanner.CoverIsComplete` | mochi/agents/capability_planner.py:593-618 | the selection repeats nothing, respects the limit and stops short of it only when nothing uncovered can be covered |
| `CapabilityPlanner.ExposedAreEligible` | mochi/agents/capability_planner.py:481-497 | the planner exposes eligible tools only |
| `CapabilityPlanner.GreedyIsNearOptimal` | mochi/agents/capability_planner.py:593-618 | at most H(n)*k tools are selected, where n capabilities can be covered and k tools cover them |
| `CapabilityPlanner.MakePlan` | mochi/agents/capability_planner.py:367-497 | a plan is made exactly for catalogs with unique names and policy names that are not all white space; it lists what is asked and unavailable, the permitted tools in catalog order, and a selection of best picks |
| `CapabilityPlanner.CoverPicksOut` | mochi/agents/capability_planner.py:593-618 | every pick covers something left uncovered and is outranked by no candidate (more coverage, then harmless before hazardous, then priority, then name), and picking ends only at the limit or when nothing left can be covered |
| `CapabilityPlanner.ExposureIgnoresCatalogOrder` | mochi/agents/capability_planner.py:593-618 | permuting the catalog does not change the exposed sequence |
| `ExposureAdapter.EnforcedToolNames` | mochi/agents/capability_exposure_adapter.py:199-238 | the candidates are the baseline's survivors, then the planner's additions, all within the ceilings |
| `ExposureAdapter.CandidatesMembers` | mochi/agents/capability_exposure_adapter.py:199-238 | the candidates are exactly the authoritative names every ceiling allows, each once |
| `ExposureAdapter.ReconcileSchemaBudget` | mochi/agents/capability_exposure_adapter.py:250-274 | the three priority loops keep exactly the first names of the priority order, in candidate order |
| `ExposureAdapter.PriorityIsPermutation` | mochi/agents/capability_exposure_adapter.py:262-271 | the priority order lists every candidate exactly once |
| `ExposureAdapter.KeptGrowsWithTheLimit` | mochi/agents/capability_exposure_adapter.py:250-274 | a larger limit keeps a superset; as many names are kept as fit |
| `ExposureAdapter.PlannerToolsAreEvictedLast` | mochi/agents/capability_exposure_adapter.py:262-274 | no planner-exposed candidate is evicted while any other candidate is kept |
| `ExposureAdapter.DeferredMembers` | mochi/agents/capability_exposure_adapter.py:241-338 | deferred are exactly the activation-allowed names that are not exposed, each once |
| `ExposureAdapter.SecondPassKeepsBroker` | mochi/agents/capability_exposure_adapter.py:89-114 | the reduced budget keeps a subset and still needs the broker |
| `ExposureAdapter.Adapt` | mochi/agents/capability_exposure_adapter.py:44-196 | names plus broker slot fit the limit; every exposed, discoverable, deferred or activatable name passes disabling, allowlist, denials, sandbox and the contract's literal tool lists, every eligible name that passes is activatable; names are the planner's or infrastructure, in their order; a wanted name stays out only for want of room; the authorization errors cannot occur |
| `ExposureAdapter.ExposureIsSanctioned` | mochi/agents/capability_exposure_adapter.py:199-338 | what the two passes leave, read against ceilings, contract, plan and baseline themselves |
| `ExposureAdapter.PlannerOrderDecides` | mochi/agents/capability_exposure_adapter.py:262-274 | among the planner's tools, whatever is kept stands before whatever is evicted |
| `ToolExposure.PlanAndExpose` | mochi/agents/capability_exposure_adapter.py:44-196 | planner and adapter together: every exposed name is baseline infrastructure or a catalog tool all policies permit, every activatable name is permitted, every name passes every ceiling, and the budget is kept |
| `Text.CleanIdempotent` | mochi/agents/plan_ledger.py:44-58 | cleaning a text twice is cleaning it once |
| `Text.CleanTexts` | mochi/agents/plan_ledger.py:85-107 | a cleaned tuple has distinct clean entries within its bounds, and a clean one is unchanged |
| `Text.CleanKeepsWords` | mochi/agents/plan_ledger.py:44-58 | cleaning keeps the words and their order |
| `Text.CleanEachIs` | mochi/agents/plan_ledger.py:85-107 | a tuple cleans exactly when each entry does, and lists the cleaned entries |
| `PlanLedgers.MakeItem` | mochi/agents/plan_ledger.py:156-230 | constructed items satisfy every item rule and valid items are rebuilt as themselves |
| `PlanLedgers.ItemConstructedIff` | mochi/agents/plan_ledger.py:156-230 | an item is constructed exactly from fields that clean within their literal bounds and fit the status, and carries them cleaned |
| `CycleSearch.Search.Visit` | mochi/agents/plan_ledger.py:479-488 | a visit either closes the vertex with its open calls untouched, or there is a directed cycle |
| `CycleSearch.Search.AllVisitedIsAcyclic` | mochi/agents/plan_ledger.py:476-491 | once every vertex has been visited without a report, the dependencies have no cycle |
| `CycleSearch.Acyclic` | mochi/agents/plan_ledger.py:476-491 | the depth-first search terminates and accepts exactly the acyclic dependency relations |
| `PlanLedgers.CheckDependencies` | mochi/agents/plan_ledger.py:460-474 | the loop passes exactly when all dependencies exist and started items have completed ones |
| `PlanLedgers.ValidateItems` | mochi/agents/plan_ledger.py:452-491 | items are accepted exactly when ids are unique, at most one is in progress, dependencies exist, started ones are ready, and dependencies are acyclic; each defect means what it says |
| `PlanLedgers.SoundPlanIff` | mochi/agents/plan_ledger.py:452-491 | the structural rules read off the items: distinct ids, one in progress, every dependency listed and completed once its dependent started, no chain of dependencies that returns |
| `PlanLedgers.MakeLedger` | mochi/agents/plan_ledger.py:295-367 | a ledger is constructed exactly when its cleaned form is valid; a valid one is unchanged |
| `PlanLedgers.LedgerConstructedIff` | mochi/agents/plan_ledger.py:295-367 | a ledger is constructed exactly from header fields that clean within their literal bounds, one to twelve sound items, and a terminal status only after an advance, and carries them cleaned |
| `PlanLedgers.SetItemStatus` | mochi/agents/plan_ledger.py:537-619 | the loop, the item constructor and the revalidation yield exactly the specified status change |
| `PlanLedgers.StatusChangesIff` | mochi/agents/plan_ledger.py:537-619 | a change is accepted exactly on its status's own condition, for all five statuses; the named item then has the requested status, its own texts, the cleaned evidence only when completed, the cleaned blocker only when blocked, and one more attempt exactly when it newly starts |
| `PlanLedgers.MayReplaceIff` | mochi/agents/plan_ledger.py:507-535 | a proposed ledger may replace the previous one exactly when that is open, the identity is kept, finished items stay, and completions are evidenced |
| `PlanLedgers.ChangeRevalidates` | mochi/agents/plan_ledger.py:537-619 | an accepted status change leaves a valid ledger and replaces one item in place, terminal items by themselves |
| `PlanLedgers.OnlyExcessEvidenceFailsLate` | mochi/agents/plan_ledger.py:581-612 | after the explicit checks the item constructor can fail only on more than eight evidence references |
| `PlanLedgers.RunsSettle` | mochi/agents/plan_ledger.py:507-619 | over every run of changes, replacements and saves all ledgers are valid, and completed and cancelled items never change |
| `PlanLedgers.CompletionsAreEvidenced` | mochi/agents/plan_ledger.py:537-639 | over every run under one set of recognised evidence, no item becomes completed on anything else |
| `PlanLedgers.SomeItemIsReady` | mochi/agents/plan_ledger.py:452-491 | if nothing is in progress or cancelled and something is unfinished, some unfinished item has all its dependencies completed |
| `PlanLedgers.CanAlwaysFinish` | mochi/agents/plan_ledger.py:537-619 | from every ledger without cancelled items at most two status changes per item complete the whole plan |
| `PlanLedgerRepositories.LoadFromEvents` | mochi/agents/plan_ledger.py:876-899 | the reverse scan loads the last event of the goal and ledger |
| `PlanLedgerRepositories.LoadsIff` | mochi/agents/plan_ledger.py:876-970 | on any log: the last event decides, by its schema, session, texts, revision and payload |
| `PlanLedgerRepositories.FindIdempotentEvent` | mochi/agents/plan_ledger.py:846-863 | the reverse scan finds the last event of the ledger with the key |
| `PlanLedgerRepositories.AppendPredicate` | mochi/agents/plan_ledger.py:760-817 | the predicate decides replay, key reuse, conflict or append as specified |
| `PlanLedgerRepositories.Repository.Save` | mochi/agents/plan_ledger.py:717-843 | a save whose two steps are separated by any activity of other writers appends at most its one event, at the moment of the conditional append |
| `PlanLedgerRepositories.SavedIsTrue` | mochi/agents/plan_ledger.py:717-843 | on any log: a new `saved` is told exactly when the log grew by the one event that carries the request; a replayed `saved` only when an earlier event carries it; otherwise nothing is appended |
| `PlanLedgerRepositories.CommitTells` | mochi/agents/plan_ledger.py:760-817 | what a writer is told on a legal log, read off the log: refused if the last event cannot be read, replayed or refused if the key is in use, conflict with the stored revision and ledger exactly when that differs from the expected one, saved otherwise |
| `PlanLedgerRepositories.SaveTells` | mochi/agents/plan_ledger.py:717-843 | the same for a whole save with other writers in between |
| `PlanLedgerRepositories.LoadReturnsLastSaved` | mochi/agents/plan_ledger.py:876-970 | on every log of these writers a load returns the ledger saved last, or fails on that event's timestamp alone |
| `PlanLedgerRepositories.RunsKeepLegal` | mochi/agents/plan_ledger.py:717-843 | every interleaving of saves keeps each event legal with respect to the log before it |
| `PlanLedgerRepositories.RevisionsAreConsecutive` | mochi/agents/plan_ledger.py:760-817 | each ledger's revisions in the log are exactly 1..n |
| `PlanLedgerRepositories.KeysAreUnique` | mochi/agents/plan_ledger.py:776-806 | no idempotency key occurs twice for a ledger |
| `PlanLedgerRepositories.OneWinner` | mochi/agents/plan_ledger.py:807-817 | after one writer has won an expected revision no later writer does, whatever happens in between |
| `PlanLedgerRepositories.ReplayIsHarmless` | mochi/agents/plan_ledger.py:776-806 | repeating a request after any activity appends nothing and returns the stored ledger exactly when the ledger still loads |
| `PlanLedgerRepositories.LoadsBackIffTimestampClean` | mochi/agents/plan_ledger.py:740-757 | a saved ledger loads back as saved if and only if its timestamp is neither blank nor over-long |
| `PlanLedgerRepositories.BlankTimestampIsLost` | mochi/agents/plan_ledger.py:740-757 | a first revision stamped with a single space is appended and then does not load |
| `PlanLedgerRepositories.UnreadableForEver` | mochi/agents/plan_ledger.py:761-775 | a ledger whose last event cannot be read stays unreadable under every further activity |
| `PlanLedgerRepositories.LoadIgnoresOthers` | mochi/agents/plan_ledger.py:876-899 | events of other ledgers and components change no load |
| `Text.StripIdempotent` | mochi/agents/conversation_state_store.py:927-930 | stripping twice is stripping once |
| `CheckpointStore.LoadFromEvents` | mochi/agents/conversation_state_store.py:664-687 | the reverse scan loads the last event of the turn |
| `CheckpointStore.LoadsIff` | mochi/agents/conversation_state_store.py:664-687 | on any log: the last event of the turn decides; a loaded checkpoint is the stored one, its body and stage untouched, its texts stripped |
| `Text.StripIs` | mochi/agents/conversation_state_store.py:927-930 | stripping leaves the text from its first to its last character that is no white space |
| `CheckpointStore.Repository.MutateStrictSnapshot` | mochi/agents/conversation_state_store.py:705-768 | the critical section changes nothing when the history has moved, else performs the specified transition |
| `CheckpointStore.Repository.Save` | mochi/agents/conversation_state_store.py:689-785 | under any interference in up to eight rounds, `saved` is returned exactly when the one event was appended; giving up means others wrote in every round |
| `CheckpointStore.SavedIffAppended` | mochi/agents/conversation_state_store.py:705-768 | a transition reports `saved` if and only if the log grew by its event |
| `CheckpointStore.TransitionTells` | mochi/agents/conversation_state_store.py:705-768 | what a writer is told on a legal log, read off the log: refused if the last event cannot be read, conflict with the stored revision and checkpoint, refused with them if the stage may not follow, saved otherwise |
| `CheckpointStore.RunsKeepLegal` | mochi/agents/conversation_state_store.py:689-785 | every interleaving keeps each event legal with respect to the log before it |
| `CheckpointStore.HistoriesAreLegal` | mochi/agents/conversation_state_store.py:66-74 | each turn's revisions are 1..n and its stages follow the transition table |
| `CheckpointStore.WalkToCompletedHasShape` | mochi/agents/conversation_state_store.py:66-74 | a walk of the table that completes has the shape contract_resolved+ (awaiting_approval or executing)* executing verifying+ completed |
| `CheckpointStore.ShapeWalks` | mochi/agents/conversation_state_store.py:66-74 | every sequence of that shape is a walk of the table |
| `CheckpointStore.WalksIff` | mochi/agents/conversation_state_store.py:66-74 | the table allows exactly these stage sequences: the contract, approval and execution in any mix, verification after an execution, and one ending, completed from verification or blocked from anywhere |
| `CheckpointStore.CompletedHistories` | mochi/agents/conversation_state_store.py:689-785 | a completed turn's history has that shape and nothing follows the completion |
| `CheckpointStore.LoadsBackIffReadable` | mochi/agents/conversation_state_store.py:788-876 | a saved checkpoint loads back, stripped, if and only if its ids are clean and its timestamp is not blank |
| `CheckpointStore.PaddedOrUndatedIsLost` | mochi/agents/conversation_state_store.py:788-876 | a checkpoint saved under a padded turn id or a blank timestamp does not load |
| `CheckpointStore.LoadedIsValid` | mochi/agents/conversation_state_store.py:788-876 | whatever loads is itself a valid checkpoint, so reading is stable |
| `CheckpointStore.ListNonterminal` | mochi/agents/conversation_state_store.py:636-662 | exactly the turns whose latest checkpoint is readable and not terminal are listed, each once, most recent first |
| `ArtifactEvidence.StatusMeaning` | mochi/agents/artifact_verifier.py:1817-1837 | the execution status is `succeeded` exactly when the last result of every requested call has no error |
| `ArtifactEvidence.CollectEvidence` | mochi/agents/artifact_verifier.py:950-1006 | the index and the loop collect exactly the evidence of the specification, in request order |
| `ArtifactEvidence.EvidenceIffYielded` | mochi/agents/artifact_verifier.py:950-1006 | a piece of evidence is there if and only if a first request of a non-empty call id with exactly one result of its call and tool yields it |
| `ArtifactEvidence.PassedExecutionIsReal` | mochi/agents/artifact_verifier.py:1732-1814 | a tool-execution criterion passes only on one real, completed, error-free call without pending approval, with the expected exit code and profile, and with the argument digest, call id, operation id and turn id it names |
| `ArtifactEvidence.VerifyTarget` | mochi/agents/artifact_verifier.py:1494-1667 | a target has no errors exactly when existence, digest, content and every criterion hold |
| `ArtifactEvidence.PassesIff` | mochi/agents/artifact_verifier.py:1669-1814 | every criterion passes exactly when the file's content, or the one piece of evidence that concerns it, is as it asks |
| `ArtifactVerification.Collector.AddRequest` | mochi/agents/artifact_verifier.py:1203-1235 | a request authorises its resolved paths under its call id and tool, or is refused as a repeat |
| `ArtifactVerification.Collector.AddResult` | mochi/agents/artifact_verifier.py:1237-1294 | a first-party result updates the claims of authorised paths only and records the others as unexpected |
| `ArtifactVerification.Collector.AddExpectation` | mochi/agents/artifact_verifier.py:1296-1310 | an expectation overrides existence, digest and content and adds its criteria |
| `ArtifactVerification.ReadAllRequests` | mochi/agents/artifact_verifier.py:1203-1235 | no error is recorded exactly when call ids are distinct and patches parse; then the claims are the requests' targets |
| `ArtifactVerification.ReadAllResults` | mochi/agents/artifact_verifier.py:1237-1294 | no error is recorded exactly when every first-party result answers its request; then unexpected paths are exactly the unauthorised ones |
| `ArtifactVerification.ReadAllExpectations` | mochi/agents/artifact_verifier.py:1296-1310 | per path the last expectation decides existence, digest and content while the criteria of all accumulate |
| `ArtifactVerification.Verify` | mochi/agents/artifact_verifier.py:1021-1153 | success holds exactly when the history is trusted, every call succeeded, there is a target, and every claim the history determines verifies on the evidence the history determines |
| `ArtifactReading.SuccessIff` | mochi/agents/artifact_verifier.py:1021-1153 | success read off calls, expectations and workspace alone: distinct parsed calls, honest results, every call worked, some target, and every target deleted or with the digest, content and criteria last asked for |
| `ArtifactVerification.ClaimKeys` | mochi/agents/artifact_verifier.py:1184-1326 | the targets are exactly the paths requests and expectations name; results add none |
| `ArtifactVerification.SuccessDelivers` | mochi/agents/artifact_verifier.py:1021-1153 | success means every expectation is delivered: existence, content and digest of the last one of its path, the criteria of all |
| `ArtifactVerification.SuccessConfirmsReports` | mochi/agents/artifact_verifier.py:1184-1326 | success means every target without expectation is gone if any result reports its deletion, and otherwise has the last reported digest and the last reported or written content |
| `OutcomeVerification.RetryMax` | mochi/agents/outcome_verifier.py:175-178 | the disposition is one of the receipts' and of highest precedence |
| `OutcomeVerification.VerifyAll` | mochi/agents/outcome_verifier.py:1309-1353 | the counting loop computes the declarative aggregate |
| `OutcomeVerification.OrderIndependent` | mochi/agents/outcome_verifier.py:1309-1407 | verdict, hard failure and disposition do not depend on the order of the criteria |
| `OutcomeVerification.HardFailureFails` | mochi/agents/outcome_verifier.py:1378-1407 | a hard failure makes the verdict `failed` |
| `OutcomeVerification.VerifiedMeans` | mochi/agents/outcome_verifier.py:1378-1407 | the verdict is `verified` exactly when something was verified and every required criterion was |
| `OutcomeVerification.VerdictIff` | mochi/agents/outcome_verifier.py:1378-1407 | all four verdicts, by the criteria alone |
| `OutcomeVerification.ReceiptMeans` | mochi/agents/outcome_verifier.py:1309-1353 | the hard failure and the precedence of the five dispositions |
| `RecoveryPolicies.CoordinatorRecoversIff` | mochi/agents/controlled_recovery.py:205-316 | exact conditions for a model replan, a new operation and a corrective replan |
| `RecoveryPolicies.DirectiveIff` | mochi/agents/controlled_recovery.py:205-355 | exact conditions of every directive, the continued and the unknown approval included |
| `RecoveryPolicies.Consume` | mochi/agents/recovery_policy.py:241-273 | a budget is consumed exactly when every cost is covered, and then each cost is taken off once |
| `RecoveryPolicies.ConsumeAdds` | mochi/agents/recovery_policy.py:241-273 | consuming twice is consuming the sums once |
| `RecoveryPolicies.MakeDecision` | mochi/agents/recovery_policy.py:291-348 | a decision is constructible exactly with at most sixteen distinct, non-blank, short failures, valid operation ids, an approval continuation only with an operation, and a replacement only with a fresh lineage |
| `RecoveryPolicies.RecoveryIsJustified` | mochi/agents/recovery_policy.py:423-553 | recovery needs a failed required non-semantic criterion, no crossed or an exactly known side effect, and pays one attempt and one model call |
| `RecoveryPolicies.ActionsIff` | mochi/agents/recovery_policy.py:423-553 | each of the eight actions is taken if and only if its condition on receipt, operation, approval, budget and fresh id holds; under which operation id, and that only recoveries cost |
| `RecoveryPolicies.ReasonsAreTrue` | mochi/agents/recovery_policy.py:423-553 | the reason given is true of the question; three reasons in the code are never given |
| `RecoveryPolicies.FailedIdsOf` | mochi/agents/recovery_policy.py:412-420 | the failed ids are those of the failed and unverified criteria, in order |
| `RecoveryPolicies.ReplacementHasFreshLineage` | mochi/agents/recovery_policy.py:515-544 | a replacement supersedes exactly the known-outcome operation under a different id, with no approval in play |
| `RecoveryPolicies.UnknownOutcomeBlocks` | mochi/agents/recovery_policy.py:465-472 | while an outcome is unknown nothing is retried and nothing is spent |
| `RecoveryPolicies.AnswersIff` | mochi/agents/recovery_policy.py:302-348 | the policy answers if and only if at most sixteen criteria failed under distinct ids, the operation id fits 128 characters, and a fresh id that a replacement reads is neither blank nor longer |
| `RecoveryPolicies.RepeatedIdsRaise` | mochi/agents/recovery_policy.py:302-316 | two failed criteria under one id make it raise |
| `RecoveryPolicies.LongOperationIdRaises` | mochi/agents/recovery_policy.py:317-348 | an operation id of 129 characters makes it raise although no criterion failed |
| `RecoveryPolicies.ChainIsBounded` | mochi/agents/recovery_policy.py:423-553 | along any chain threading the returned budget, recoveries number at most min(attempts, model calls) and are exactly what was spent |
| `GenerationPolicy.ContinuationOverlap` | mochi/agents/generation_policy.py:230-235 | the descending loop finds the longest overlap if it has at least three characters |
| `GenerationPolicy.MergeContinuation` | mochi/agents/generation_policy.py:208-227 | the three branches compute one merge function |
| `GenerationPolicy.MergeIs` | mochi/agents/generation_policy.py:208-235 | a text that holds the other, else both with their longest meeting of three or more characters dropped once |
| `GenerationPolicy.MergeJoins` | mochi/agents/generation_policy.py:208-227 | the merge has the partial output as prefix, the continuation as suffix, and drops only the overlap |
| `GenerationPolicy.JointTextIsNoShorter` | mochi/agents/generation_policy.py:208-235 | no text with that prefix and suffix is shorter than the longest overlap allows |
| `GenerationPolicy.MergeIsShortestIff` | mochi/agents/generation_policy.py:208-235 | the merge is a shortest such text exactly unless the overlap is a partial one of one or two characters |
| `GenerationPolicy.ShortOverlapIsKeptTwice` | mochi/agents/generation_policy.py:208-235 | ab and bc merge to abbc although abc joins them |
| `GenerationPolicy.RemergeChangesNothing` | mochi/agents/generation_policy.py:208-227 | merging the same continuation again changes nothing |
| `GenerationPolicy.ContinuationBudget.Consume` | mochi/agents/generation_policy.py:80-97 | one attempt is granted exactly when attempts, tokens and elapsed time stay within every limit that is set; a refusal costs nothing |
| `Text.WordsAcross` | mochi/agents/compaction.py:444-448 | white space separates the words before it from those after it |
| `Compaction.SuffixCostsLess` | mochi/agents/compaction.py:439-448 | dropping messages from the front never raises the token estimate |
| `Compaction.EstimateIs` | mochi/agents/compaction.py:439-448 | the estimate is a quarter of the characters, rounded up, or the number of words if that is more |
| `Compaction.FromSettings` | mochi/agents/compaction.py:116-138 | the trigger is eighty percent and the retained window forty percent of the messages, within their floors, and the window is always smaller than the trigger |
| `Compaction.SelectRetainedHistory` | mochi/agents/compaction.py:231-256 | under a token budget the longest fitting suffix of the window is kept, or the last message alone |
| `Compaction.Compact` | mochi/agents/compaction.py:140-209 | compaction happens exactly when a reason exists and the window is shorter than the history; it splits the history in two non-empty parts |
| `Compaction.ReasonIff` | mochi/agents/compaction.py:140-230 | the reason is the token budget exactly when the applicable limit is exceeded, else the window exactly when the trigger is |
| `Compaction.OverBudgetIff` | mochi/agents/compaction.py:231-256 | what is kept exceeds the budget if and only if the last message alone does |
| `Compaction.OneTokenIsNotMet` | mochi/agents/compaction.py:231-256 | under a budget of one token two equal messages are compacted to one that is over the budget |

## Left out

- Cancellation at shutdown, real time-outs and the failure of the playback worker in the voice scheduler: the worker is taken to stay alive and every stream to be finite, ending normally or by an error.
- Voice activity detection, printing and the console: the recorder contributes utterances at endpoints.
- LLM calls, prompts, semantic judges and the intent contract: their results are arbitrary values, the contract a record of the fields that are read.
- The session store itself: an append of a built event is atomic, and the history revision is the length of the log.
- JSON shape, key sets, value types and version tags of stored payloads: a payload is a record with arbitrary field values that is cleaned and validated again on loading.
- Diagnostics: tool-plan diagnostics, exposure diagnostics, scope-evidence path lists, receipt hashes, compaction summaries and the text of error messages.
- SHA-256, path resolution, argument digests and validation-profile matchers are parameters; case normalisation of paths and digests is the identity.
- Artifact obligation, unexpected-target receipts beyond their failing the verdict, retry disposition and recovery plan of the artifact verifier.
- Verification-receipt and conversation-state repositories: the same log protocol as the ledger's, without the stage machine.
- `list_active`: it rejects a session that holds another goal's ledger; the model covers loading and saving.
- Migration of version-1 checkpoints and the JSON snapshots inside a checkpoint: the store carries them unread.
- Wall-clock seconds in the recovery budget are reals, so floating-point rounding is not modelled.
- `Compaction.FromSettings`: eighty and forty percent are exact integer divisions instead of truncated floating-point products.
- `ExecutionSchedule.ValidateSchedule`: missing keys of the plan file, which raise in the source, are not modelled except for the metrics that are read with `get`.
- `CapabilityPlanner.MakePlan`: a tool's `matched` sets and reason strings are kept only as far as eligibility needs them.
- `ArtifactVerification.Collector.AddRequest`: patch and argument parsing is given as the list of paths and a parse failure.
- `PlanLedgerRepositories.Repository.Save`: type errors of malformed requests are not modelled; a refused construction is `Raised`.
