# Multi-tool orchestrator: a verified model

The orchestrator turns a request into one factual digest. A planner proposes
subtasks tagged with capabilities; a router asks a live, mutable registry which
tools offer them; a gate drops the candidates the session scope does not grant;
an executor runs the rest in dependency batches, concurrently inside a batch; a
conflict check compares the answers to each subtask and a resolver picks one; a
digest records what happened. This project models that pipeline and proves what
it promises for every plan, every tool behaviour and every model reply: the
planner, the tools and the model are arbitrary oracles, and the rest of the
process may change the registry between any two steps.

Run `dafny verify dfyconfig.toml` to check everything.

## How the modules follow the source

| module | what it models |
|---|---|
| `ToolIndex`, `LiveRegistry` | `registry.py`: lookup and catalog as functions of the ordered dict; the `Registry` class with its operation history |
| `Router`, `Permissions` | `router.py`, `permissions.py`: the loops, and what they mean |
| `Layering`, `TopoBatches` | `_topo_batches`: a graph theory of chains, cycles and layerings; the loop proved against it |
| `Schedule` | the part of `run` that builds the batches of calls |
| `Invocation` | `_invoke`: one call, with the in-place `pop` on the returned dict |
| `Executor`, `Timing`, `PlanRuns` | `run`/`_run_batch` as a barrier protocol with every interleaving of starts and finishes |
| `Overlap` | the converse: which orders the protocol leaves open, and what really runs concurrently |
| `SequentialRun` | `sequential=True` as plain loops, refined to a run of the protocol |
| `Resolver`, `Llm` | `resolver.py`, and the repair loop of `llm.py` |
| `Digest` | `_summarize_for_answer` |
| `Orchestration` | `graph.py` as a transition system over the shared state |
| `Guarantees`, `Answers` | whole-run theorems |
| `Scopes` | which tools an execution really runs, against the session scope |
| `Provenance` | where the reported payloads come from, and what the digest lines cite |
| `Seqs`, `OrderedDict`, `StringOrder`, `Manifests` | vocabulary: filters, Python's dict and string order, the records |

Loops are methods proved equal to a specification function; properties are
lemmas about the functions. Interleaving and the graph are labelled transition
systems: a run is a sequence of labels, the labels carry everything
nondeterministic (replies, clock readings, registry changes, planner output), and
lemmas quantify over all runs. `should_replan` and the edge that reads it are one
step of `GateNode`.

## Where the code and its documentation disagree

- `registry.py` says registries are isolated per instance, but
  `run_orchestrator` uses `registry or REGISTRY` and an empty registry is falsy:
  a caller's empty registry is replaced by the global one
  (`CallersRegistryIsUsed`, `EmptyRegistryIsReplaced`).
- `readme.html` says execution respects a per-session permission scope. The gate
  checks the tool a call was routed to, and the executor looks the name up again:
  an allowed call can end up running any tool of that name, whatever its scope
  (`AnyNamesake`), and a read-only session can run a writing tool
  (`WritingToolRuns`). An execution stays in scope exactly when every call's name
  is still bound within it when the call starts, as it is when no name changed its
  scope since routing (`ScopeTheorem`, `CompletedScope`).
- `capability_catalog` calls its count `tool_count`, but it counts mentions: it is
  the number of candidates exactly when no offering tool lists the capability
  twice (`CatalogAgreesWithRouting`, `ToolCountCanOvercount`).
- `readme.html` says a rejected adjudication falls back to the first candidate,
  `README.md` says it does not; the code uses manifest priority. A conflict whose
  second tool has the higher priority shows the difference
  (`FallbackIsNotTheFirst`). The fallback is the first candidate exactly when no
  other tool of the conflict has a higher priority at that moment (`FirstIsPicked`),
  which holds in every run in which those tools kept their routing-time priorities
  (`PriorityPicksFirst`).
- An UNROUTABLE digest line looks the capability up by id, last bearer winning:
  with a repeated id it can name a capability that does have tools
  (`UnroutableLineCanBeFalse`). It is truthful exactly when the last subtask with
  that id is itself unroutable, which unique ids guarantee
  (`UnroutableLineTruth`, `UnroutableLineTrueIfUnique`).
- The manifests say a tool's own `observed_at` overrides the clock; `_invoke` pops
  it from the dict the tool returned, so a tool that returns one dict twice keeps
  it only the first time (`InvokeTwice`, `StaleDataLooksFresh`), and one with a
  malformed timestamp fails the first time and succeeds the second
  (`SecondCallForgives`). The second record is right exactly when there was no
  timestamp or it equals the clock (`SharedDictLosesItsTimestamp`).
- With a repeated id the digest can print a result under another subtask's
  capability (`LineUnderWrongCapability`); it names the call's own exactly when the
  line's subtask has the capability of the id's last routable bearer
  (`LineCapability`).
- The speedup of a batch is a quotient of rounded times, so the number shown can
  exceed the number of calls (`RoundingCanExceed`); `RoundedSpeedup` says exactly
  when. For a sequential batch or a single call it never exceeds 1.
- `depends_on` orders subtasks only while every subtask in between can run: with
  the middle one of a chain denied or unroutable, the last one can start while the
  first is still running (`DroppedOrderIsLost`). What order remains is exact
  (`SubtaskOrder`).

## Model

| member | source | states |
|---|---|---|
| `LiveRegistry.Registry.RegisterTool` | src/orchestrator/registry.py:40-45 | A present name without `replace` is rejected and nothing changes; otherwise the name is bound to the new tool, and a present name keeps its position |
| `LiveRegistry.Registry.UnregisterTool` | src/orchestrator/registry.py:47-48 | Removes exactly that name and reports whether it was there; the registry stays the one its operation history determines |
| `LiveRegistry.HistoryTheorem` | src/orchestrator/registry.py:37-48 | After any history a name is live exactly when a registration of it was never removed; order is order of birth (replacing keeps the slot, re-registering moves to the end); each name is bound to its birth or its latest replacement |
| `ToolIndex.FindByCapabilityMeaning` | src/orchestrator/registry.py:56-59 | `find_by_capability` lists exactly the live tools offering the capability, each once, by descending priority, ties in registration order |
| `ToolIndex.SortIsStable` | src/orchestrator/registry.py:59 | The sort is a descending permutation that keeps the order inside every priority class |
| `ToolIndex.StableSortIsUnique` | src/orchestrator/registry.py:59 | Those properties determine the sorted list |
| `ToolIndex.CapabilityCatalog` | src/orchestrator/registry.py:61-75 | The nested loops build, for every capability, the entry merged from all mentions of it |
| `ToolIndex.EntryMeaning` | src/orchestrator/registry.py:66-74 | An entry exists iff some tool offers the capability; its description is the first such tool's, its scopes are theirs, and its count exceeds their number exactly when one lists the capability twice |
| `ToolIndex.EntrySchema` | src/orchestrator/registry.py:72 | The entry's parameters are those of the offering tools merged in order |
| `ToolIndex.CatalogAgreesWithRouting` | src/orchestrator/registry.py:61-75 | A capability is in the planner's catalog iff it is routable, with the scopes of its candidates; exactly when the count is the candidate count |
| `ToolIndex.ToolCountCanOvercount` | src/orchestrator/registry.py:67-74 | A concrete registry whose one tool is counted as two |
| `Router.RoutePlan` | src/orchestrator/router.py:38-62 | The loop computes `Route` in both modes |
| `Router.RouteMeaning` | src/orchestrator/router.py:42-62 | Candidate keys are the ids with a routable bearer, holding those of the last one: in lookup order, all or in PRIORITY mode the first, each a call with that subtask's id, capability and arguments to that tool; the unroutable list has exactly the ids with an unroutable bearer |
| `Router.RouteKeepsOrder` | src/orchestrator/router.py:42-60 | Unroutable ids come in plan order, candidate keys in the order in which their ids first have a routable bearer; with unique ids that is plan order |
| `Router.UniqueRoute` | src/orchestrator/router.py:42-60 | With unique ids each subtask has its own candidates iff routable, and is unroutable otherwise |
| `Router.DuplicateIdsCanBeBoth` | src/orchestrator/router.py:42-60 | An id is routed and unroutable at once exactly when the plan has subtasks of both kinds under it |
| `Permissions.RunGate` | src/orchestrator/permissions.py:22-57 | The nested loops split the visited candidates into allowed calls and denials by scope |
| `Permissions.GateMeaning` | src/orchestrator/permissions.py:37-57 | Exactly the calls of candidates in scope are allowed, and exactly the others denied, each denial naming the subtask, the capability asked for, the tool and the scope it needs; none twice and none lost |
| `Permissions.AllowedFor` | src/orchestrator/permissions.py:37-40 | Each subtask keeps its granted candidates in routed order and nothing else |
| `Permissions.FullyDeniedMeaning` | src/orchestrator/permissions.py:60-63 | A subtask is fully denied iff it has candidates and all are out of scope; it then left a denial |
| `Permissions.AllowedInScope` | src/orchestrator/router.py:48-60 | Every allowed call carries the id, capability and arguments of the id's last routable subtask and names a tool that offered it, in scope |
| `Permissions.MoreScope` | src/orchestrator/permissions.py:37-63 | Enlarging the scope keeps the allowed list as a subsequence and shrinks the fully denied set |
| `Permissions.Trichotomy` | src/orchestrator/permissions.py:60-63 | With unique ids every subtask is exactly one of unroutable, fully denied, runnable |
| `Permissions.DeniedByMode` | src/orchestrator/permissions.py:37-63 | For the last routable bearer of any id: in ALL mode the id is fully denied iff the capability's catalog scopes are disjoint from the session's; in PRIORITY mode iff the top tool's scope is missing |
| `TopoBatches.ComputeBatches` | src/orchestrator/executor.py:21-40 | The loop returns the graph's layers, each in string order, with the left-over nodes as last batch |
| `TopoBatches.BatchesMeaning` | src/orchestrator/executor.py:26-40 | The output lists every key exactly once, in non-empty batches that are the layers, each strictly increasing in string order |
| `StringOrder.LeMeaning` | src/orchestrator/executor.py:31-33 | The comparison behind `sorted` is the order by first difference, a prefix coming first |
| `TopoBatches.OrderIndependence` | src/orchestrator/executor.py:30-38 | The output does not depend on key insertion order, nor on order or repetition inside dependency lists |
| `Layering.StuckMeaning` | src/orchestrator/executor.py:31-34 | The fallback batch is exactly the nodes that can reach a cycle or a dependency outside the graph |
| `Layering.FallbackTheorem` | src/orchestrator/executor.py:31-34 | On a closed graph the fallback fires iff there is a cycle, and holds exactly the nodes that can reach one |
| `Layering.EdgeTheorem` | src/orchestrator/executor.py:30-38 | A dependency is in an earlier batch, or in the same one exactly when both are in the fallback batch |
| `Layering.ChainOrder` | src/orchestrator/executor.py:30-38 | Along any chain of dependencies inside the graph the last node is batched strictly before the first |
| `Layering.LongestChainTheorem` | src/orchestrator/executor.py:30-38 | On an acyclic closed graph a node's batch index is the length of its longest dependency chain |
| `Layering.NoLayeringPutsItEarlier` | src/orchestrator/executor.py:30-38 | No assignment that puts dependencies strictly earlier places any node before its batch |
| `Layering.BatchesAreALayering` | src/orchestrator/executor.py:30-38 | Without a cycle the batches are such an assignment |
| `Layering.LayeringExistsIffAcyclic` | src/orchestrator/executor.py:30-38 | Such an assignment exists exactly when there is no cycle |
| `Layering.FewestBatchesTheorem` | src/orchestrator/executor.py:30-38 | So no valid schedule has fewer batches |
| `Schedule.PlanBatches` | src/orchestrator/executor.py:140-156 | The grouping, dependency and batching loops of `run` compute `BatchCalls` |
| `Schedule.DepsMeaning` | src/orchestrator/executor.py:144-149 | The dependency dict has the runnable plan ids as keys; a repeated id takes the runnable dependencies of its last bearer |
| `Schedule.RunGraphMeaning` | src/orchestrator/executor.py:144-149 | With unique ids the edges are the declared dependencies between runnable subtasks |
| `Schedule.RunGraphClosed` | src/orchestrator/executor.py:144-149 | When all calls belong to the plan, every edge stays inside the graph |
| `Schedule.SchedulingConserves` | src/orchestrator/executor.py:140-156 | Over all batches the calls are exactly the allowed calls of plan subtasks, each subtask's in its own order |
| `Schedule.CallPlacement` | src/orchestrator/executor.py:155-156 | Every call sits in the batch of its subtask |
| `Schedule.BatchOrder` | src/orchestrator/executor.py:155-156 | Inside a batch the calls come in string order of their subtask ids |
| `Invocation.InvokeTool` | src/orchestrator/executor.py:43-105 | One call yields the record `Invoke` describes, and the returned dict loses `observed_at` in place |
| `Invocation.InvokeMeaning` | src/orchestrator/executor.py:43-105 | Whatever the tool does there is a record for this call; it is ok iff the tool is registered and replied well; every kind of failure occurs exactly for the replies that call for it; payload and timestamp are the tool's for a usable dict, else empty and the clock's |
| `Invocation.InvokeTwice` | src/orchestrator/executor.py:61 | Two calls answered with one dict object, any dict: when each record is ok, and which payload and timestamp it carries |
| `Invocation.SharedDictLosesItsTimestamp` | src/orchestrator/executor.py:61 | For every dict, the second record of a shared dict equals that of a dict of its own exactly when there was no timestamp or it is a number equal to the clock |
| `Invocation.StaleDataLooksFresh` | src/orchestrator/executor.py:61 | A concrete dict with data from time 1 that is recorded as observed at time 100 |
| `Invocation.SecondCallForgives` | src/orchestrator/executor.py:58-85 | A concrete dict with a malformed timestamp whose first call fails and second succeeds |
| `Invocation.FillsMeaning` | src/orchestrator/executor.py:58-85 | Whatever the clocks, a record is ok iff the tool was there and its reply good, holds the payload the reply delivered and the timestamp the tool supplied |
| `Executor.BarrierSafety` | src/orchestrator/executor.py:108-159 | In every interleaving no call starts before every call of every earlier batch has ended, and no event repeats |
| `Executor.EveryCallOnce` | src/orchestrator/executor.py:108-159 | A completed run starts and ends every call exactly once and no others |
| `Executor.ResultsMeaning` | src/orchestrator/executor.py:111-125 | Results are one per call, in call order, each being what that call's reply makes of the tool bound to its name when it started, own timestamp included |
| `Executor.RecordTheorem` | src/orchestrator/executor.py:43-44 | A call starts once, and its record is fixed by the tool bound to its name at that moment |
| `Executor.SteadyTool` | src/orchestrator/executor.py:43-44 | A call whose tool stays bound as it is gets the record its reply makes of that tool, own timestamp included, whatever happens to all other tools |
| `Executor.ScheduleIndependence` | src/orchestrator/executor.py:111-116 | Any two runs, sequential or not, agree, but for clock readings, on every call whose reply and own tool are the same in both, whatever other calls do and whatever else is registered or removed meanwhile |
| `Executor.SequentialIsASchedule` | src/orchestrator/executor.py:112-115 | Every sequential run is a parallel run |
| `Executor.CanComplete` | src/orchestrator/executor.py:108-161 | From any reachable state the run can be completed: no deadlock |
| `Executor.RunLength` | src/orchestrator/executor.py:108-161 | Every run takes at most two steps per batch and two per call, and is complete exactly when it took them all |
| `SequentialRun.RunSequentially` | src/orchestrator/executor.py:128-161 | The sequential loops return, for each call, the record its reply makes of the tool the live registry holds at that call's clock reading; results and reports are those of a completed run of the protocol |
| `Timing.SpeedupTheorem` | src/orchestrator/executor.py:111-124 | In any interleaving no call outlasts its batch and the estimate is at most calls times wall time, so before rounding the speedup is at most the call count; sequentially at most 1 |
| `Timing.RoundedSpeedup` | src/orchestrator/manifests.py:117-121 | With the times rounded to four and the speedup to two decimals: at most 1 for a sequential batch or a single call; else at most the call count exactly when the rounded estimate is at most (calls + 0.005) times the rounded wall time |
| `Timing.RoundingCanExceed` | src/orchestrator/manifests.py:117-121 | A concrete run of two calls shown with a speedup of 3 |
| `PlanRuns.DependencySafety` | src/orchestrator/executor.py:144-159 | In every interleaving and under any registry changes: if a call of a has started and a depends on runnable b, all calls of b have ended, unless both are blocked |
| `PlanRuns.BlockedMeansCyclic` | src/orchestrator/executor.py:144-151 | In a run of plan calls, blocked means reaching a dependency cycle |
| `Overlap.OrderTheorem` | src/orchestrator/executor.py:111-159 | A call can start before another has ended exactly when its batch is not later (and, sequentially, when it does not come later in their batch) |
| `Overlap.OverlapTheorem` | src/orchestrator/executor.py:111-116 | Two calls can be in flight at once exactly when they share a batch and the run is not sequential |
| `Overlap.InvokesWhatItLooksUp` | src/orchestrator/executor.py:43-60 | A call runs on exactly the tool that was looked up when it started |
| `Overlap.SubtaskOrder` | src/orchestrator/executor.py:140-159 | For any plan: a call of a can start before a call of c has ended exactly when a's batch is not later than c's (and, sequentially, when it does not come later in a common batch) |
| `Overlap.NothingIsAwaited` | src/orchestrator/executor.py:145-149 | A subtask (the last under its id) whose dependencies were all dropped is in the first batch and waits, sequentially, for the calls before it there, and otherwise for nothing |
| `Overlap.DroppedOrderIsLost` | src/orchestrator/executor.py:145-149 | A concrete chain a, b, c whose middle cannot run, and a run that starts a while c has not ended |
| `PlanRuns.RunConserves` | src/orchestrator/executor.py:140-161 | For every plan the results are, as (subtask, tool) pairs, the allowed calls of plan subtasks, each subtask's in order |
| `PlanRuns.CountsAddUp` | src/orchestrator/executor.py:119-124 | The reported call counts sum to the number of results |
| `Llm.CompleteJson` | src/orchestrator/llm.py:64-107 | The retry loop computes the exchange; an absent or zero budget means two attempts, any other is used as it is |
| `Llm.AttemptsMeaning` | src/orchestrator/llm.py:73-107 | Never more prompts than the budget; each repair prompt is built on the reply just before it; only invalid replies are retried; the outcome is the last reply's |
| `Llm.DefaultExchange` | src/orchestrator/llm.py:73-107 | By default a valid reply or a transport error ends the exchange, and an invalid one is repaired exactly once, by a prompt built on it; the outcome of every case |
| `Resolver.DetectConflicts` | src/orchestrator/resolver.py:33-49 | The grouping loops compute `Conflicts` |
| `Resolver.ConflictTheorem` | src/orchestrator/resolver.py:33-49 | A subtask has a conflict iff some two of its successes differ; at most one each, holding exactly its successes in order |
| `Resolver.ConflictOrder` | src/orchestrator/resolver.py:33-49 | Conflicts come in the order in which their subtasks first succeeded |
| `Resolver.Resolve` | src/orchestrator/resolver.py:142-155 | The loop yields one resolution per conflict, in order |
| `Resolver.ResolutionMeaning` | src/orchestrator/resolver.py:52-139 | For any adjudicator reply or error the resolution names the tool of the picked result -- first of the highest priority, first of the freshest, or the model's choice if it is a candidate and the priority pick if not -- and gives the matching reason |
| `Resolver.OnePick` | src/orchestrator/resolver.py:52-139 | Among results of distinct tools the pick is unique |
| `Resolver.FirstIsPicked` | src/orchestrator/resolver.py:52-108 | Priority resolution and every fallback pick the first of distinct candidates exactly when none has a higher live priority |
| `Resolver.UnregisteredWeighsZero` | src/orchestrator/resolver.py:53-55 | A tool no longer registered loses to a later one exactly when that one has positive priority |
| `Resolver.FallbackIsNotTheFirst` | src/orchestrator/resolver.py:98-129 | A concrete conflict in which a failed or rejected adjudication falls back to the second candidate |
| `Resolver.FirstMaxMeaning` | src/orchestrator/resolver.py:57 | `max` picks the first maximal result |
| `Digest.Summarize` | src/orchestrator/graph.py:130-173 | The loops compute `Summary`, including the lookup that could raise |
| `Digest.SettledSubtask` | src/orchestrator/graph.py:137-150 | A subtask is resolved iff conflicted iff its successes differ, so the skipping `elif` is never taken |
| `Digest.DigestIsTotal` | src/orchestrator/graph.py:142-148 | With one resolution per conflict the winner lookup never fails |
| `Digest.OneAnswer` | src/orchestrator/graph.py:140-159 | The digest reports a payload for a subtask iff it had a success, and always the same one |
| `Digest.DigestAccounts` | src/orchestrator/graph.py:151-168 | FAILED, DENIED and UNROUTABLE lines are exactly the failed results of unconflicted subtasks, the denials and the unroutable ids; the notes line is there iff there are notes |
| `Digest.UnroutableLineNames` | src/orchestrator/graph.py:165-168 | An UNROUTABLE line names the capability of the id's last bearer |
| `Digest.UnroutableLineTruth` | src/orchestrator/graph.py:165-168 | An UNROUTABLE line names a capability without tools exactly when the id's last bearer is unroutable |
| `Digest.UnroutableLineCanBeFalse` | src/orchestrator/graph.py:165-168 | A concrete plan and registry for which the line denies a capability that has a tool |
| `Digest.UnroutableLineTrueIfUnique` | src/orchestrator/graph.py:165-168 | Unique ids make those lines truthful |
| `Orchestration.RunKeepsInv` | src/orchestrator/graph.py:79-218 | The control, history and data invariant holds in every state of every run |
| `Guarantees.SettingsKept` | src/orchestrator/graph.py:223-246 | Every run keeps the scope, mode, policy and execution mode it was started with |
| `Guarantees.RequestIsServed` | src/orchestrator/graph.py:223-246 | So what holds of reachable states holds of every request under the settings asked for |
| `Guarantees.LogCounts` | src/orchestrator/graph.py:195-218 | The visit counts the theorems speak of are the counts of the visits made |
| `Guarantees.PlannerVisit` | src/orchestrator/graph.py:79-83 | The plan is the planner's first reply or its reply to the one repair prompt; anything else ends the run; pending denials are told once |
| `Guarantees.RouterVisit` | src/orchestrator/graph.py:86-88 | The router goes by the registry as it is at its visit: ids with a tool are candidates, ids without are unroutable |
| `Guarantees.ExecutorVisit` | src/orchestrator/graph.py:110-114 | An executor visit is one run of the allowed calls, in the mode asked for, with the replies the tools gave |
| `Guarantees.ResolverVisit` | src/orchestrator/graph.py:122-127 | Each conflict is resolved under the registry of its moment and by the ruling of its own adjudicator |
| `Orchestration.CallersRegistryIsUsed` | src/orchestrator/graph.py:237 | A caller's registry is used exactly when it is non-empty (or the global one is empty too); otherwise, and when none is given, the global one is |
| `Orchestration.EmptyRegistryIsReplaced` | src/orchestrator/graph.py:237 | A concrete empty registry under which a capability becomes routable |
| `Guarantees.NextNode` | src/orchestrator/graph.py:195-218 | No node reads an absent key or gets stuck: its step is possible whatever planner, model and tools answer |
| `Guarantees.StepLowersRank` | src/orchestrator/graph.py:106-107 | Every node visit uses up one of at most ten steps |
| `Guarantees.AnsweringPlanner` | src/orchestrator/graph.py:79-83 | Only a planner that fails to answer ends a run early |
| `Guarantees.ReachesEnd` | src/orchestrator/graph.py:195-218 | With a planner that answers, every run can reach END |
| `Guarantees.BudgetTheorem` | src/orchestrator/graph.py:49-107 | A completed run made at most 2 planner visits and 1 replan, one executor and one aggregator visit, a resolver visit iff there was a conflict, at most 10 node visits; between one and two model calls per planner visit and per conflict the model decides, and one for the answer; with no more conflicts than subtasks |
| `Guarantees.ExecutorSeesCurrentPlan` | src/orchestrator/graph.py:91-114 | The executor only sees calls routed from the current plan, each with the capability and arguments of its subtask and naming a tool that at routing offered it and was in scope, and no pending denials |
| `Scopes.ScopeTheorem` | src/orchestrator/executor.py:43-60 | An execution runs only tools in scope exactly when every call's name is bound within the scope when the call starts; sufficient: no name changed its scope since routing |
| `Scopes.CompletedScope` | src/orchestrator/graph.py:109-114 | The same of the execution of every completed run |
| `Scopes.AnyNamesake` | src/orchestrator/executor.py:43-60 | An allowed call can run a given tool in some execution exactly when that tool carries its name: scope is no condition |
| `Scopes.WritingToolRuns` | src/orchestrator/permissions.py:37-40 | A concrete read-only session, routed to a reading tool, in which a writing tool runs |
| `Guarantees.ReplanTheorem` | src/orchestrator/graph.py:91-103 | Every run past its first gate visit, completed or crashed, replans iff the first plan had a routable subtask with every candidate out of scope; the planner is then told non-empty denials covering each such subtask, and otherwise none |
| `Guarantees.FinalDenials` | src/orchestrator/graph.py:97-103 | The final denials are those of every gate visit, in order |
| `Guarantees.PipelineConserves` | src/orchestrator/graph.py:86-114 | Final results are, with multiplicity, the candidates of the last routing whose scope is granted; reports account for all |
| `Answers.DigestTheorem` | src/orchestrator/graph.py:130-159 | In every completed run each conflict has one resolution, and the digest reports a payload for a subtask iff it had a success, always the same one |
| `Answers.WinnerTheorem` | src/orchestrator/graph.py:142-148 | In every completed run, under every policy, each conflict is decided by exactly one of its successful results, the one the policy picks and the lookup finds, and the digest reports its payload and no other |
| `Answers.AnswerTheorem` | src/orchestrator/graph.py:130-159 | The digest reports a payload for a subtask iff it is that of one of its successes -- for a conflicted subtask, of the one the policy picked under the registry and model reply of that moment |
| `Answers.RequestedAnswer` | src/orchestrator/graph.py:223-246 | For every request the reported payloads go by the policy asked for, and PRIORITY mode, if asked for, never conflicts |
| `Provenance.ReportedIsDelivered` | src/orchestrator/graph.py:130-159 | The digest reports a payload for a subtask iff a tool bound to an allowed call's name at its start delivered it in this run, that call carrying its subtask's arguments and its record being the subtask's answer |
| `Provenance.FreshestByOwnTime` | src/orchestrator/resolver.py:71-72 | FRESHEST never picks a result whose tool-supplied timestamp is older than another's in the conflict |
| `Provenance.ResolvedLineCites` | src/orchestrator/graph.py:142-148 | A CONFLICT line cites the deciding result's tool and payload, the requested policy and a capability of that id |
| `Provenance.LineCapability` | src/orchestrator/graph.py:149-159 | A result line names the call's capability exactly when its subtask has that of the id's last routable bearer; always with unique ids |
| `Provenance.LineUnderWrongCapability` | src/orchestrator/graph.py:149-159 | A concrete digest that reports a tool under a capability it does not offer |
| `Provenance.DigestOfRun` | src/orchestrator/graph.py:130-173 | A completed run's digest has a DENIED line for exactly the candidates refused in some round, an UNROUTABLE line for exactly the final plan's unserved subtasks, a FAILED line for exactly the failed results of unconflicted subtasks, and the plan's notes |
| `Answers.ResultsAreKeyed` | src/orchestrator/graph.py:144 | No two results of a run share subtask and tool, so the winner lookup is unambiguous |
| `Answers.ProvidersAsked` | src/orchestrator/router.py:48-60 | Each subtask's results come from its permitted candidates, in `find_by_capability` order |
| `Answers.PriorityPicksFirst` | src/orchestrator/resolver.py:52-108 | Priority resolution and every model fallback pick the conflict's first success exactly when its tool has the highest priority at that moment, as it does whenever the conflict's tools kept their routing-time priorities |
| `Answers.FirstSuccessTheorem` | src/orchestrator/resolver.py:33-57 | In ALL mode with the priority policy every permitted provider was asked in priority order, and unless a tool of the subtask's conflict overtook the first one since routing the digest reports the payload of the first that succeeded, conflict or not |
| `Answers.SteadyFirstSuccess` | src/orchestrator/resolver.py:33-57 | In particular when the tools of the subtask's conflict kept their routing-time priorities |
| `Answers.PriorityModeNeverConflicts` | src/orchestrator/router.py:48 | PRIORITY mode never produces a conflict |
| `Answers.ModesAgree` | src/orchestrator/router.py:17-28 | ALL and PRIORITY mode report the same payload when the top tool is permitted, succeeds alike and was not overtaken since routing |

## Left out

- Rendering, command-line options, traces on disk: user interface and file output.
- The chat transport, JSON parsing and schema validation: foreign code; a reply is valid, invalid or a transport error.
- Prompt and rationale wording, and the text of error messages: the kind of rationale and of failure is kept.
- The demo tools: a tool is an oracle that returns a dict, returns something else, raises or times out.
- A tool that raises outside Python's `Exception` (task cancellation, interpreter exit): it would leave `_invoke` and end the batch; such outcomes are not among the modelled replies.
- Payload dicts with non-string keys, mappings that are not dicts, and timestamps given as numeric strings: record validation details.
- Floating point: durations and speedups are exact reals, rounded half to even where the source rounds; the rounded session totals are not modelled.
- The order in which the event loop starts coroutines: the protocol allows any order, a superset; what `Overlap` says can happen is what this protocol allows.
- `list_tools`, `__len__`, `__contains__` and the decorator: thin accessors over the same dict; nothing in the pipeline but the truth test on an empty registry depends on them.
- Exceptions other than `LLMError` from the model client: they would end the run.
- Assembly of the final report: it copies the last state's fields.
