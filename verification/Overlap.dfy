/** Which orders the executor does not enforce (src/orchestrator/executor.py):
    the converse of barrier safety.  Calls of one batch really overlap, and a
    dependency dropped by `run` orders nothing. */
module Overlap {
  import opened OrderedDict
  import opened Manifests
  import opened ToolIndex
  import opened Layering
  import opened Schedule
  import opened Invocation
  import opened Executor
  import opened PlanRuns

  /** A run over the first batches is a run over all of them. */
  lemma {:induction false} PrefixRun(cfg: Config, k: nat, start: State, steps: seq<Step>)
    requires k <= |cfg.batches| && Run(cfg.(batches := cfg.batches[..k]), start, steps).Some?
    ensures Run(cfg, start, steps) == Run(cfg.(batches := cfg.batches[..k]), start, steps)
  {
    if steps != [] {
      PrefixRun(cfg, k, start, steps[..|steps| - 1]);
      hide Invoke;
    }
  }

  /** Some run stands right before batch k. */
  lemma ReachBatch(cfg: Config, tools: Tools, clock: real, k: nat) returns (steps: seq<Step>, s: State)
    requires RegistryOk(tools) && k <= |cfg.batches|
    ensures Run(cfg, Initial(tools, clock), steps) == Some(s)
    ensures s.phase.Between? && |s.done| == k
  {
    var short := cfg.(batches := cfg.batches[..k]);
    steps := CanComplete(short, tools, clock, []);
    PrefixRun(cfg, k, Initial(tools, clock), steps);
    s := Run(cfg, Initial(tools, clock), steps).value;
  }

  /** The first j calls of the open batch have ended, the rest wait. */
  predicate JustBefore(cfg: Config, s: State, k: nat, j: nat) {
    && k < |cfg.batches| && j <= |cfg.batches[k]|
    && |s.done| == k && s.phase.Open? && |s.phase.slots| == |cfg.batches[k]|
    && (forall i :: 0 <= i < j ==> s.phase.slots[i].Finished?)
    && (forall i :: j <= i < |s.phase.slots| ==> s.phase.slots[i].Waiting?)
  }

  lemma {:induction false} ReachCall(cfg: Config, tools: Tools, clock: real, k: nat, j: nat) returns (steps: seq<Step>, s: State)
    requires RegistryOk(tools) && k < |cfg.batches| && j <= |cfg.batches[k]|
    ensures Run(cfg, Initial(tools, clock), steps) == Some(s) && JustBefore(cfg, s, k, j)
    decreases j
  {
    if j == 0 {
      steps, s := ReachBatch(cfg, tools, clock, k);
      RunOne(cfg, Initial(tools, clock), steps, s, OpenBatch);
      steps, s := steps + [OpenBatch], Next(cfg, s, OpenBatch);
    } else {
      steps, s := ReachCall(cfg, tools, clock, k, j - 1);
      hide Run, Invoke;
      RunOne(cfg, Initial(tools, clock), steps, s, Start(j - 1));
      var t := Next(cfg, s, Start(j - 1));
      RunOne(cfg, Initial(tools, clock), steps + [Start(j - 1)], t, Finish(j - 1, 0.0));
      steps, s := steps + [Start(j - 1)] + [Finish(j - 1, 0.0)], Next(cfg, t, Finish(j - 1, 0.0));
    }
  }

  // ----- What may start before what has ended

  /** In this run call (k, j) starts, at p, while call (k2, j2) has not ended. */
  ghost predicate StartsEarly(cfg: Config, tools: Tools, clock: real, steps: seq<Step>, p: nat, k: nat, j: nat, k2: nat, j2: nat) {
    && Run(cfg, Initial(tools, clock), steps).Some?
    && var trace := Run(cfg, Initial(tools, clock), steps).value.trace;
       p < |trace| && trace[p] == Started(k, j) && Ended(k2, j2) !in trace[..p]
  }

  ghost predicate CanStartBeforeEnd(cfg: Config, tools: Tools, clock: real, k: nat, j: nat, k2: nat, j2: nat) {
    exists steps, p: nat :: StartsEarly(cfg, tools, clock, steps, p, k, j, k2, j2)
  }

  lemma EndedFirst(cfg: Config, tools: Tools, clock: real, steps: seq<Step>, p: nat, k: nat, j: nat, k2: nat, j2: nat)
    requires RegistryOk(tools) && Run(cfg, Initial(tools, clock), steps).Some?
    requires var trace := Run(cfg, Initial(tools, clock), steps).value.trace;
             p < |trace| && trace[p] == Started(k, j)
    requires k2 < |cfg.batches| && j2 < |cfg.batches[k2]|
    requires k2 < k || (k2 == k && cfg.sequential && j2 < j)
    ensures Ended(k2, j2) in Run(cfg, Initial(tools, clock), steps).value.trace[..p]
  {
    RunKeepsInv(cfg, tools, clock, steps);
    var trace := Run(cfg, Initial(tools, clock), steps).value.trace;
    hide Run, ShapeOk, TraceMatches;
    assert MayFollow(cfg, trace[..p], trace[p]);
  }

  lemma OrderIsEnforced(cfg: Config, tools: Tools, clock: real, steps: seq<Step>, p: nat, k: nat, j: nat, k2: nat, j2: nat)
    requires RegistryOk(tools) && k2 < |cfg.batches| && j2 < |cfg.batches[k2]|
    requires k2 < k || (k2 == k && cfg.sequential && j2 < j)
    ensures !StartsEarly(cfg, tools, clock, steps, p, k, j, k2, j2)
  {
    if StartsEarly(cfg, tools, clock, steps, p, k, j, k2, j2) {
      EndedFirst(cfg, tools, clock, steps, p, k, j, k2, j2);
    }
  }

  lemma OrderIsFree(cfg: Config, tools: Tools, clock: real, k: nat, j: nat, k2: nat, j2: nat) returns (steps: seq<Step>, p: nat)
    requires RegistryOk(tools) && k < |cfg.batches| && j < |cfg.batches[k]| && k2 < |cfg.batches| && j2 < |cfg.batches[k2]|
    requires k < k2 || (k == k2 && (cfg.sequential ==> j <= j2))
    ensures StartsEarly(cfg, tools, clock, steps, p, k, j, k2, j2)
  {
    var before, s := ReachCall(cfg, tools, clock, k, if cfg.sequential then j else 0);
    RunKeepsInv(cfg, tools, clock, before);
    assert !HasEnded(cfg, s, k2, j2);
    assert Ended(k2, j2) !in s.trace;
    hide Run, ShapeOk, TraceOk;
    RunOne(cfg, Initial(tools, clock), before, s, Start(j));
    steps, p := before + [Start(j)], |s.trace|;
    var t := Next(cfg, s, Start(j));
    assert t.trace[..p] == s.trace && t.trace[p] == Started(k, j);
  }

  /** The exact order of the protocol: a call can start before another has ended
      exactly when its batch is not later -- and, sequentially, when it does not
      come later in their common batch. */
  lemma OrderTheorem(cfg: Config, tools: Tools, clock: real, k: nat, j: nat, k2: nat, j2: nat)
    requires RegistryOk(tools) && k < |cfg.batches| && j < |cfg.batches[k]| && k2 < |cfg.batches| && j2 < |cfg.batches[k2]|
    ensures CanStartBeforeEnd(cfg, tools, clock, k, j, k2, j2) <==> k < k2 || (k == k2 && (cfg.sequential ==> j <= j2))
  {
    hide StartsEarly;
    if k < k2 || (k == k2 && (cfg.sequential ==> j <= j2)) {
      var steps, p := OrderIsFree(cfg, tools, clock, k, j, k2, j2);
    } else {
      forall steps, p: nat ensures !StartsEarly(cfg, tools, clock, steps, p, k, j, k2, j2) {
        OrderIsEnforced(cfg, tools, clock, steps, p, k, j, k2, j2);
      }
    }
  }

  // ----- Calls in flight together

  predicate InFlight(s: State, k: nat, j: nat) {
    |s.done| == k && s.phase.Open? && j < |s.phase.slots| && s.phase.slots[j].Running?
  }

  ghost predicate CanOverlap(cfg: Config, tools: Tools, clock: real, k: nat, j: nat, k2: nat, j2: nat) {
    exists steps :: var end := Run(cfg, Initial(tools, clock), steps);
                    end.Some? && InFlight(end.value, k, j) && InFlight(end.value, k2, j2)
  }

  lemma BothStart(cfg: Config, tools: Tools, clock: real, k: nat, j: nat, j2: nat)
    requires RegistryOk(tools) && k < |cfg.batches| && j < |cfg.batches[k]| && j2 < |cfg.batches[k]| && j != j2 && !cfg.sequential
    ensures CanOverlap(cfg, tools, clock, k, j, k, j2)
  {
    var steps, s := ReachCall(cfg, tools, clock, k, 0);
    hide Run;
    RunOne(cfg, Initial(tools, clock), steps, s, Start(j));
    var t := Next(cfg, s, Start(j));
    RunOne(cfg, Initial(tools, clock), steps + [Start(j)], t, Start(j2));
    var end := Run(cfg, Initial(tools, clock), steps + [Start(j)] + [Start(j2)]);
    assert end.Some? && InFlight(end.value, k, j) && InFlight(end.value, k, j2);
  }

  lemma EarlierHasEnded(cfg: Config, s: State, k: nat, j: nat, j2: nat)
    requires Inv(cfg, s) && cfg.sequential && j < j2 && HasStarted(cfg, s, k, j2)
    ensures HasEnded(cfg, s, k, j)
  {
    var p :| 0 <= p < |s.trace| && s.trace[p] == Started(k, j2);
    assert MayFollow(cfg, s.trace[..p], s.trace[p]);
    assert Ended(k, j) in s.trace;
  }

  lemma OneAtATime(cfg: Config, tools: Tools, clock: real, steps: seq<Step>, k: nat, j: nat, j2: nat)
    requires RegistryOk(tools) && Run(cfg, Initial(tools, clock), steps).Some? && cfg.sequential && j < j2
    ensures var s := Run(cfg, Initial(tools, clock), steps).value;
            !(InFlight(s, k, j) && InFlight(s, k, j2))
  {
    var s := Run(cfg, Initial(tools, clock), steps).value;
    RunKeepsInv(cfg, tools, clock, steps);
    hide Run, TraceOk;
    if HasStarted(cfg, s, k, j2) { EarlierHasEnded(cfg, s, k, j, j2); }
  }

  /** Concurrency is real: two different calls can be in flight at the same
      moment exactly when they share a batch and the run is not sequential. */
  lemma OverlapTheorem(cfg: Config, tools: Tools, clock: real, k: nat, j: nat, k2: nat, j2: nat)
    requires RegistryOk(tools) && k < |cfg.batches| && j < |cfg.batches[k]| && k2 < |cfg.batches| && j2 < |cfg.batches[k2]|
    requires (k, j) != (k2, j2)
    ensures CanOverlap(cfg, tools, clock, k, j, k2, j2) <==> k == k2 && !cfg.sequential
  {
    if k == k2 && !cfg.sequential {
      BothStart(cfg, tools, clock, k, j, j2);
    }
    hide Run;
    if k == k2 && cfg.sequential {
      forall steps | Run(cfg, Initial(tools, clock), steps).Some?
        ensures var s := Run(cfg, Initial(tools, clock), steps).value; !(InFlight(s, k, j) && InFlight(s, k, j2))
      {
        OneAtATime(cfg, tools, clock, steps, k, if j < j2 then j else j2, if j < j2 then j2 else j);
      }
    }
  }

  // ----- Which tool a call runs

  ghost predicate RunsAt(cfg: Config, start: State, steps: seq<Step>, m: nat, k: nat, j: nat, tool: RegisteredTool) {
    m <= |steps|
    && var s := Run(cfg, start, steps[..m]);
       s.Some? && InFlight(s.value, k, j) && s.value.phase.slots[j].tool == Some(tool)
  }

  /** At some moment of the run, call (k, j) is in flight on this tool. */
  ghost predicate Invokes(cfg: Config, start: State, steps: seq<Step>, k: nat, j: nat, tool: RegisteredTool) {
    exists m: nat :: RunsAt(cfg, start, steps, m, k, j, tool)
  }

  lemma LookedUpInPrefix(cfg: Config, start: State, steps: seq<Step>, m: nat, k: nat, j: nat, tool: Option<RegisteredTool>)
    requires m <= |steps| && LookedUp(cfg, start, steps[..m], k, j, tool)
    ensures LookedUp(cfg, start, steps, k, j, tool)
  {
    hide Run;
    var n: nat :| StartedAt(cfg, start, steps[..m], n, k, j, tool);
    assert steps[..m][..n] == steps[..n];
    assert StartedAt(cfg, start, steps, n, k, j, tool);
  }

  lemma StartedRuns(cfg: Config, start: State, steps: seq<Step>, n: nat, k: nat, j: nat, tool: RegisteredTool)
    requires Run(cfg, start, steps).Some? && StartedAt(cfg, start, steps, n, k, j, Some(tool))
    ensures RunsAt(cfg, start, steps, n + 1, k, j, tool)
  {
    RunPrefix(cfg, start, steps, n + 1);
    assert steps[..n + 1][..n] == steps[..n];
  }

  /** A call runs on exactly the tool that was looked up when it started. */
  lemma InvokesWhatItLooksUp(cfg: Config, tools: Tools, clock: real, steps: seq<Step>, k: nat, j: nat, tool: RegisteredTool)
    requires RegistryOk(tools) && Run(cfg, Initial(tools, clock), steps).Some?
    ensures Invokes(cfg, Initial(tools, clock), steps, k, j, tool) <==> LookedUp(cfg, Initial(tools, clock), steps, k, j, Some(tool))
  {
    var start := Initial(tools, clock);
    hide Run, RunsAt, StartedAt;
    if Invokes(cfg, start, steps, k, j, tool) {
      var m: nat :| RunsAt(cfg, start, steps, m, k, j, tool);
      RunningWasLookedUp(cfg, tools, clock, steps, m, k, j, tool);
    }
    if LookedUp(cfg, start, steps, k, j, Some(tool)) {
      var n: nat :| StartedAt(cfg, start, steps, n, k, j, Some(tool));
      StartedRuns(cfg, start, steps, n, k, j, tool);
    }
  }

  lemma RunningWasLookedUp(cfg: Config, tools: Tools, clock: real, steps: seq<Step>, m: nat, k: nat, j: nat, tool: RegisteredTool)
    requires RegistryOk(tools) && RunsAt(cfg, Initial(tools, clock), steps, m, k, j, tool)
    ensures LookedUp(cfg, Initial(tools, clock), steps, k, j, Some(tool))
  {
    RunKeepsContents(cfg, tools, clock, steps[..m]);
    hide Run, LookedUp, Answers;
    LookedUpInPrefix(cfg, Initial(tools, clock), steps, m, k, j, Some(tool));
  }

  /** Whatever registry the rest of the process puts in place before a call
      starts, some completed run looks the call's tool up in it. */
  lemma LookedUpIn(cfg: Config, tools: Tools, clock: real, later: Tools, k: nat, j: nat) returns (steps: seq<Step>)
    requires RegistryOk(tools) && RegistryOk(later) && k < |cfg.batches| && j < |cfg.batches[k]|
    ensures Run(cfg, Initial(tools, clock), steps).Some? && Complete(cfg, Run(cfg, Initial(tools, clock), steps).value)
    ensures LookedUp(cfg, Initial(tools, clock), steps, k, j, later.Get(cfg.batches[k][j].tool))
  {
    var start := Initial(tools, clock);
    var before, s := ReachCall(cfg, tools, clock, k, j);
    hide Run, RegistryOk;
    RunOne(cfg, start, before, s, Outside(later, s.clock));
    var t := Next(cfg, s, Outside(later, s.clock));
    before := before + [Outside(later, s.clock)];
    RunOne(cfg, start, before, t, Start(j));
    LooksUp(cfg, start, before, t, j);
    steps := CanComplete(cfg, tools, clock, before + [Start(j)]);
    assert steps[..|before| + 1] == before + [Start(j)];
    hide LookedUp, Complete;
    LookedUpInPrefix(cfg, start, steps, |before| + 1, k, j, later.Get(cfg.batches[k][j].tool));
  }

  // ----- Plans

  /** Between runnable subtasks a and c of any plan: a call of a can start before
      a call of c has ended exactly when a's batch is not later than c's -- and,
      sequentially, when it does not come later in their common batch. */
  lemma SubtaskOrder(cfg: Config, plan: Plan, calls: seq<ToolCall>, tools: Tools, clock: real, k: nat, j: nat, k2: nat, j2: nat)
    requires RegistryOk(tools)
    requires k < |cfg.batches| && j < |cfg.batches[k]| && k2 < |cfg.batches| && j2 < |cfg.batches[k2]|
    ensures Executes(cfg, plan, calls) ==>
              var g := RunGraph(plan, calls);
              var a, c := cfg.batches[k][j].subtaskId, cfg.batches[k2][j2].subtaskId;
              && a in g && c in g
              && (CanStartBeforeEnd(cfg, tools, clock, k, j, k2, j2) <==>
                    BatchOf(g, a) < BatchOf(g, c) || (BatchOf(g, a) == BatchOf(g, c) && (cfg.sequential ==> j <= j2)))
  {
    OrderTheorem(cfg, tools, clock, k, j, k2, j2);
    if Executes(cfg, plan, calls) {
      hide BatchCalls, RunGraph, Layers, CanStartBeforeEnd;
      CallPlacement(plan, calls, k, cfg.batches[k][j]);
      CallPlacement(plan, calls, k2, cfg.batches[k2][j2]);
    }
  }

  /** So a subtask all of whose dependencies were dropped waits for nothing but,
      sequentially, the calls before it in the first batch. */
  lemma NothingIsAwaited(cfg: Config, plan: Plan, calls: seq<ToolCall>, tools: Tools, clock: real, i: nat, k: nat, j: nat, k2: nat, j2: nat)
    requires RegistryOk(tools)
    requires LastBearer(plan.subtasks, i) && forall d :: d in plan.subtasks[i].dependsOn ==> d !in Runnable(calls)
    requires k < |cfg.batches| && j < |cfg.batches[k]| && k2 < |cfg.batches| && j2 < |cfg.batches[k2]|
    requires cfg.batches[k][j].subtaskId == plan.subtasks[i].id
    ensures Executes(cfg, plan, calls) ==>
              k == 0 && (CanStartBeforeEnd(cfg, tools, clock, k, j, k2, j2) <==> k2 > 0 || (cfg.sequential ==> j <= j2))
  {
    OrderTheorem(cfg, tools, clock, k, j, k2, j2);
    if Executes(cfg, plan, calls) {
      hide BatchCalls, RunGraph, Layers, CanStartBeforeEnd;
      CallPlacement(plan, calls, k, cfg.batches[k][j]);
      RunnableNode(plan, calls, plan.subtasks[i].id);
      DroppedDependencies(plan, calls, i);
    }
  }

  lemma RunnableNode(plan: Plan, calls: seq<ToolCall>, sid: string)
    requires sid in RunGraph(plan, calls)
    ensures sid in Runnable(calls)
  {
    DepsMeaning(plan.subtasks, Runnable(calls));
  }

  // ----- A plan whose intended order is lost

  function StepSubtask(id: string, dependsOn: seq<string>): Subtask {
    Subtask(id, "x", map[], dependsOn)
  }

  /** a needs b, and b needs c. */
  function ThreeSteps(): Plan {
    Plan([StepSubtask("a", ["b"]), StepSubtask("b", ["c"]), StepSubtask("c", [])], "")
  }

  /** Only a and c may run. */
  function OuterCalls(): seq<ToolCall> {
    [ToolCall("a", "x", "t", map[]), ToolCall("c", "x", "t", map[])]
  }

  lemma ExecutesItself(plan: Plan, calls: seq<ToolCall>, replies: (nat, nat) -> Reply)
    ensures Executes(Config(BatchCalls(plan, calls), false, replies), plan, calls)
  {
  }

  lemma EarlyRun(cfg: Config, tools: Tools, clock: real, k: nat, j: nat, k2: nat, j2: nat) returns (steps: seq<Step>, p: nat)
    requires CanStartBeforeEnd(cfg, tools, clock, k, j, k2, j2)
    ensures StartsEarly(cfg, tools, clock, steps, p, k, j, k2, j2)
  {
    hide StartsEarly;
    var some, at: nat :| StartsEarly(cfg, tools, clock, some, at, k, j, k2, j2);
    steps, p := some, at;
  }

  lemma LostOrder(plan: Plan, calls: seq<ToolCall>, i: nat, a: ToolCall, c: ToolCall, tools: Tools, clock: real, replies: (nat, nat) -> Reply)
    returns (cfg: Config, steps: seq<Step>, p: nat, k: nat, j: nat, k2: nat, j2: nat)
    requires RegistryOk(tools) && a in calls && c in calls && c.subtaskId in Ids(plan.subtasks)
    requires LastBearer(plan.subtasks, i) && plan.subtasks[i].id == a.subtaskId
    requires forall d :: d in plan.subtasks[i].dependsOn ==> d !in Runnable(calls)
    ensures Executes(cfg, plan, calls)
    ensures k < |cfg.batches| && j < |cfg.batches[k]| && cfg.batches[k][j] == a
    ensures k2 < |cfg.batches| && j2 < |cfg.batches[k2]| && cfg.batches[k2][j2] == c
    ensures StartsEarly(cfg, tools, clock, steps, p, k, j, k2, j2)
  {
    cfg := Config(BatchCalls(plan, calls), false, replies);
    ExecutesItself(plan, calls, replies);
    assert plan.subtasks[i] in plan.subtasks;
    k, j := CallIsScheduled(plan, calls, a);
    k2, j2 := CallIsScheduled(plan, calls, c);
    hide BatchCalls, CanStartBeforeEnd, StartsEarly, Executes;
    NothingIsAwaited(cfg, plan, calls, tools, clock, i, k, j, k2, j2);
    steps, p := EarlyRun(cfg, tools, clock, k, j, k2, j2);
  }

  lemma OnlyOuterRun()
    ensures LastBearer(ThreeSteps().subtasks, 0) && ThreeSteps().subtasks[0].id == "a" && ThreeSteps().subtasks[0].dependsOn == ["b"]
    ensures Runnable(OuterCalls()) == {"a", "c"} && "c" in Ids(ThreeSteps().subtasks)
  {
    var subtasks, calls := ThreeSteps().subtasks, OuterCalls();
    assert subtasks[2] in subtasks;
    assert calls[0] in calls && calls[1] in calls;
  }

  /** The order meant through the middle subtask is lost when that one cannot
      run: some run of this plan starts a while c has not ended. */
  lemma DroppedOrderIsLost(tools: Tools, clock: real, replies: (nat, nat) -> Reply)
    returns (cfg: Config, steps: seq<Step>, p: nat, k: nat, j: nat, k2: nat, j2: nat)
    requires RegistryOk(tools)
    ensures Executes(cfg, ThreeSteps(), OuterCalls())
    ensures k < |cfg.batches| && j < |cfg.batches[k]| && cfg.batches[k][j].subtaskId == "a"
    ensures k2 < |cfg.batches| && j2 < |cfg.batches[k2]| && cfg.batches[k2][j2].subtaskId == "c"
    ensures StartsEarly(cfg, tools, clock, steps, p, k, j, k2, j2)
  {
    OnlyOuterRun();
    var calls := OuterCalls();
    assert calls[0] in calls && calls[1] in calls;
    hide Executes, StartsEarly, Runnable, Ids, LastBearer, RegistryOk;
    cfg, steps, p, k, j, k2, j2 := LostOrder(ThreeSteps(), calls, 0, calls[0], calls[1], tools, clock, replies);
  }
}
