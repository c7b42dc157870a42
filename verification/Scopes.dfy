/** What the permission gate promises about the tools that really run.  The gate
    (src/orchestrator/permissions.py) checks the tool a call was routed to; the
    executor (src/orchestrator/executor.py) looks the name up again. */
module Scopes {
  import opened OrderedDict
  import opened Manifests
  import opened ToolIndex
  import opened Schedule
  import Router
  import opened Permissions
  import opened Invocation
  import Executor
  import Overlap
  import PlanRuns
  import opened Llm
  import opened Resolver
  import Digest
  import opened Orchestration
  import opened Guarantees

  /** The registry the allowed calls were routed and gated with. */
  function RoutedTools(s: State): Tools
    requires s.log.routes != []
  {
    s.log.routes[|s.log.routes| - 1].tools
  }

  /** One execution of the calls state s allows. */
  function ExecutionOf(s: State, replies: (nat, nat) -> Reply, clock: real, steps: seq<Executor.Step>): Execution
    requires s.plan.Some? && s.allowedCalls.Some?
  {
    Execution(ExecConfig(s, replies), s.tools, clock, steps)
  }

  ghost predicate Invokes(x: Execution, k: nat, j: nat, tool: RegisteredTool) {
    Overlap.Invokes(x.cfg, Executor.Initial(x.tools, x.clock), x.steps, k, j, tool)
  }

  /** Every tool this execution runs is in scope. */
  ghost predicate RunsInScope(x: Execution, scope: set<Scope>) {
    forall k: nat, j: nat, tool :: Invokes(x, k, j, tool) ==> tool.manifest.scope in scope
  }

  /** Whenever a call starts, its name is bound to a tool in scope, or to none. */
  ghost predicate StartsInScope(x: Execution, scope: set<Scope>) {
    forall n: nat, k: nat, j: nat, tool :: Executor.StartedAt(x.cfg, Executor.Initial(x.tools, x.clock), x.steps, n, k, j, Some(tool)) ==>
      tool.manifest.scope in scope
  }

  lemma InvokedIffStarted(x: Execution, k: nat, j: nat, tool: RegisteredTool)
    requires RegistryOk(x.tools) && x.End().Some?
    ensures Invokes(x, k, j, tool) <==> Executor.LookedUp(x.cfg, Executor.Initial(x.tools, x.clock), x.steps, k, j, Some(tool))
  {
    Overlap.InvokesWhatItLooksUp(x.cfg, x.tools, x.clock, x.steps, k, j, tool);
  }

  lemma ScopesOfStarts(x: Execution, scope: set<Scope>)
    requires RegistryOk(x.tools) && x.End().Some?
    ensures RunsInScope(x, scope) <==> StartsInScope(x, scope)
  {
    var start := Executor.Initial(x.tools, x.clock);
    hide Invokes, RegistryOk;
    hide Executor.Run, Executor.StartedAt;
    if RunsInScope(x, scope) {
      forall n: nat, k: nat, j: nat, tool | Executor.StartedAt(x.cfg, start, x.steps, n, k, j, Some(tool)) ensures tool.manifest.scope in scope {
        InvokedIffStarted(x, k, j, tool);
      }
    }
    if StartsInScope(x, scope) {
      forall k: nat, j: nat, tool | Invokes(x, k, j, tool) ensures tool.manifest.scope in scope {
        InvokedIffStarted(x, k, j, tool);
        var n: nat :| Executor.StartedAt(x.cfg, start, x.steps, n, k, j, Some(tool));
      }
    }
  }

  /** No name changed its scope between routing and the start of its call. */
  ghost predicate KeptScopes(s: State, x: Execution)
    requires s.log.routes != []
  {
    forall n: nat, k: nat, j: nat, tool :: KeptScope(s, x, n, k, j, tool)
  }

  ghost predicate KeptScope(s: State, x: Execution, n: nat, k: nat, j: nat, tool: RegisteredTool)
    requires s.log.routes != []
  {
    Executor.StartedAt(x.cfg, Executor.Initial(x.tools, x.clock), x.steps, n, k, j, Some(tool)) ==>
      var name := x.cfg.batches[k][j].tool;
      name in RoutedTools(s).vals ==> tool.manifest.scope == RoutedTools(s).vals[name].manifest.scope
  }

  /** Every allowed call was in scope when it was routed. */
  predicate RoutedInScope(s: State)
    requires s.log.routes != [] && s.allowedCalls.Some?
  {
    forall c :: c in s.allowedCalls.value ==>
      c.tool in RoutedTools(s).vals && RoutedTools(s).vals[c.tool].manifest.scope in s.scope
  }

  lemma KeptScopesSuffice(s: State, x: Execution)
    requires s.log.routes != [] && s.plan.Some? && s.allowedCalls.Some? && RoutedInScope(s) && KeptScopes(s, x)
    requires x.cfg.batches == BatchCalls(s.plan.value, s.allowedCalls.value)
    ensures StartsInScope(x, s.scope)
  {
    hide BatchCalls;
    hide Executor.StartedAt;
    forall n: nat, k: nat, j: nat, tool | Executor.StartedAt(x.cfg, Executor.Initial(x.tools, x.clock), x.steps, n, k, j, Some(tool))
      ensures tool.manifest.scope in s.scope
    {
      assert KeptScope(s, x, n, k, j, tool);
      Executor.StartedCallExists(x.cfg, Executor.Initial(x.tools, x.clock), x.steps, n, k, j, Some(tool));
      PlanRuns.ScheduledCallIsAllowed(s.plan.value, s.allowedCalls.value, k, x.cfg.batches[k][j]);
    }
  }

  /** What was checked: every allowed call names a tool that was in scope when it
      was routed.  What follows: an execution stays within the session scope
      exactly when every call's name is still bound within it at the moment the
      call starts -- as it is when no binding changed its scope since routing. */
  lemma ScopeTheorem(s: State, replies: (nat, nat) -> Reply, clock: real, steps: seq<Executor.Step>)
    requires Reachable(s) && s.node == AtExecutor && CanExecute(s, replies, clock, steps)
    ensures s.log.routes != [] && RoutedInScope(s)
    ensures var x := ExecutionOf(s, replies, clock, steps);
            && (RunsInScope(x, s.scope) <==> StartsInScope(x, s.scope))
            && (KeptScopes(s, x) ==> RunsInScope(x, s.scope))
  {
    AtExecutorFacts(s);
    GatedInScope(s);
    PresentKeys(s);
    var x := ExecutionOf(s, replies, clock, steps);
    assert x.End().Some?;
    hide Reachable, BatchCalls, RunsInScope, StartsInScope, KeptScopes, RoutedInScope, CanExecute, RegistryOk;
    hide Executor.Run;
    ScopesOfStarts(x, s.scope);
    if KeptScopes(s, x) { KeptScopesSuffice(s, x); }
  }

  lemma GatedInScope(s: State)
    requires Gated(s)
    ensures RoutedInScope(s)
  {
    var v := s.log.routes[|s.log.routes| - 1];
    hide Gate;
    hide Router.Route;
    forall c | c in s.allowedCalls.value
      ensures c.tool in RoutedTools(s).vals && RoutedTools(s).vals[c.tool].manifest.scope in s.scope
    {
      var k := AllowedInScope(v.plan.subtasks, v.tools, s.mode, s.scope, c);
    }
  }

  /** The same of the execution on record in a completed run. */
  lemma CompletedScope(s: State)
    requires Reachable(s) && s.node == AtEnd
    ensures |s.log.executions| == 1 && s.log.routes != [] && s.allowedCalls.Some? && RoutedInScope(s)
    ensures var x := s.log.executions[0];
            && (RunsInScope(x, s.scope) <==> StartsInScope(x, s.scope))
            && (KeptScopes(s, x) ==> RunsInScope(x, s.scope))
  {
    CompletedExecution(s);
    assert Gated(s) && Ran(s);
    GatedInScope(s);
    var x := s.log.executions[0];
    hide Reachable, BatchCalls, RunsInScope, StartsInScope, KeptScopes, RoutedInScope, Gated, Executed, RegistryOk;
    hide Executor.Run, Executor.AllResults, Executor.Complete;
    ScopesOfStarts(x, s.scope);
    if KeptScopes(s, x) { KeptScopesSuffice(s, x); }
  }

  // ----- What can run instead

  lemma AllowedIsScheduled(s: State, c: ToolCall) returns (k: nat, j: nat)
    requires Reachable(s) && s.node == AtExecutor && s.allowedCalls.Some? && c in s.allowedCalls.value
    ensures s.plan.Some?
    ensures k < |BatchCalls(s.plan.value, s.allowedCalls.value)| && j < |BatchCalls(s.plan.value, s.allowedCalls.value)[k]|
    ensures BatchCalls(s.plan.value, s.allowedCalls.value)[k][j] == c
  {
    ExecutorSeesCurrentPlan(s);
    var v := s.log.routes[|s.log.routes| - 1];
    AllowedBelongToPlan(v.plan, v.tools, s.mode, s.scope);
    hide Router.Route;
    hide Gate, Reachable, DenialsOf, BatchCalls;
    k, j := PlanRuns.CallIsScheduled(s.plan.value, s.allowedCalls.value, c);
  }

  /** Whatever the registry becomes before an allowed call starts, some completed
      execution runs that call on what its name is bound to by then. */
  lemma RunsOnLatest(s: State, replies: (nat, nat) -> Reply, c: ToolCall, later: Tools) returns (steps: seq<Executor.Step>, k: nat, j: nat)
    requires Reachable(s) && s.node == AtExecutor && s.allowedCalls.Some? && c in s.allowedCalls.value && RegistryOk(later)
    ensures CanExecute(s, replies, 0.0, steps)
    ensures var x := ExecutionOf(s, replies, 0.0, steps);
            && k < |x.cfg.batches| && j < |x.cfg.batches[k]| && x.cfg.batches[k][j] == c
            && Executor.LookedUp(x.cfg, Executor.Initial(x.tools, 0.0), x.steps, k, j, later.Get(c.tool))
            && (later.Get(c.tool).Some? ==> Invokes(x, k, j, later.Get(c.tool).value))
  {
    k, j := AllowedIsScheduled(s, c);
    PresentKeys(s);
    hide Reachable, BatchCalls, RegistryOk;
    hide Executor.Run, Executor.LookedUp, Executor.Complete;
    steps := Overlap.LookedUpIn(ExecConfig(s, replies), s.tools, 0.0, later, k, j);
    var x := ExecutionOf(s, replies, 0.0, steps);
    if later.Get(c.tool).Some? { InvokedIffStarted(x, k, j, later.Get(c.tool).value); }
  }

  /** Some execution runs the allowed call c on this tool. */
  ghost predicate CanInvoke(s: State, c: ToolCall, tool: RegisteredTool) {
    s.plan.Some? && s.allowedCalls.Some? &&
    exists replies, clock, steps, k: nat, j: nat :: InvokesFor(s, replies, clock, steps, k, j, c, tool)
  }

  ghost predicate InvokesFor(s: State, replies: (nat, nat) -> Reply, clock: real, steps: seq<Executor.Step>, k: nat, j: nat, c: ToolCall, tool: RegisteredTool)
    requires s.plan.Some? && s.allowedCalls.Some?
  {
    CanExecute(s, replies, clock, steps)
    && var x := ExecutionOf(s, replies, clock, steps);
       k < |x.cfg.batches| && j < |x.cfg.batches[k]| && x.cfg.batches[k][j] == c && Invokes(x, k, j, tool)
  }

  /** The scope does not limit this at all: an allowed call can end up running
      any tool whatever, in scope or not, that carries the name it was routed
      to, and no other. */
  lemma AnyNamesake(s: State, replies: (nat, nat) -> Reply, c: ToolCall, tool: RegisteredTool)
    requires Reachable(s) && s.node == AtExecutor && s.allowedCalls.Some? && c in s.allowedCalls.value
    ensures CanInvoke(s, c, tool) <==> tool.manifest.name == c.tool
  {
    PresentKeys(s);
    hide Reachable, InvokesFor;
    if tool.manifest.name == c.tool {
      var later := s.tools.Put(c.tool, tool);
      var steps, k, j := RunsOnLatest(s, replies, c, later);
      assert InvokesFor(s, replies, 0.0, steps, k, j, c, tool) by { Packed(s, replies, steps, k, j, c, tool); }
    }
    if CanInvoke(s, c, tool) {
      var rs, clock, steps, k: nat, j: nat :| InvokesFor(s, rs, clock, steps, k, j, c, tool);
      InvokedByName(s, rs, clock, steps, k, j, c, tool);
    }
  }

  lemma Packed(s: State, replies: (nat, nat) -> Reply, steps: seq<Executor.Step>, k: nat, j: nat, c: ToolCall, tool: RegisteredTool)
    requires s.plan.Some? && s.allowedCalls.Some? && CanExecute(s, replies, 0.0, steps)
    requires var x := ExecutionOf(s, replies, 0.0, steps);
             k < |x.cfg.batches| && j < |x.cfg.batches[k]| && x.cfg.batches[k][j] == c && Invokes(x, k, j, tool)
    ensures InvokesFor(s, replies, 0.0, steps, k, j, c, tool)
  {
  }

  lemma InvokedByName(s: State, replies: (nat, nat) -> Reply, clock: real, steps: seq<Executor.Step>, k: nat, j: nat, c: ToolCall, tool: RegisteredTool)
    requires s.plan.Some? && s.allowedCalls.Some? && RegistryOk(s.tools)
    requires InvokesFor(s, replies, clock, steps, k, j, c, tool)
    ensures tool.manifest.name == c.tool
  {
    var x := ExecutionOf(s, replies, clock, steps);
    InvokedIffStarted(x, k, j, tool);
    var n: nat :| Executor.StartedAt(x.cfg, Executor.Initial(x.tools, x.clock), x.steps, n, k, j, Some(tool));
    Executor.RunPrefix(x.cfg, Executor.Initial(x.tools, x.clock), x.steps, n);
    Executor.RunKeepsInv(x.cfg, x.tools, x.clock, x.steps[..n]);
    hide Executor.Run, Executor.TraceOk;
    hide BatchCalls, Invokes;
  }

  // ----- A read-only session that runs a writing tool

  /** The tool the plan is routed to only reads ... */
  function OneStepPlan(): Plan {
    Plan([Subtask("s", "c", map[], [])], "")
  }

  /** ... and this one, which takes its name, writes. */
  function WritingTool(): RegisteredTool {
    RegisteredTool(ToolManifest("t", "", ["c"], Write, 1, 10.0, map[]), 1)
  }

  function Planner(): (nat, Prompt) -> ChatReply<Plan> {
    (attempt: nat, prompt: Prompt) => Valid(OneStepPlan())
  }

  lemma ReadingTool()
    ensures RegistryOk(Digest.OneTool()) && Digest.OneTool().vals.Keys == {"t"}
    ensures Digest.OneTool().vals["t"].manifest.scope == Read && FindByCapability(Digest.OneTool(), "c") != []
  {
    Digest.OneToolOffers("c");
    hide FindByCapability;
  }

  lemma ReadingToolIsGranted(tools: Tools, sid: string)
    requires RegistryOk(tools) && forall name :: name in tools.vals ==> tools.vals[name].manifest.scope == Read
    requires sid in Router.Route(OneStepPlan().subtasks, tools, Router.All).candidates.vals
    ensures var c := Router.Route(OneStepPlan().subtasks, tools, Router.All).candidates; sid !in FullyDenied(c, Gate(c, {Read}))
  {
    var subtasks := OneStepPlan().subtasks;
    var c := Router.Route(subtasks, tools, Router.All).candidates;
    RoutedByRoute(subtasks, tools, Router.All);
    Router.RouteMeaning(subtasks, tools, Router.All);
    hide Router.Route, Router.Routable, Router.Offered;
    hide Gate, FullyDenied;
    var cs := c.vals[sid];
    var m: nat :| Router.Offered(subtasks, tools, Router.All, m, cs) && subtasks[m].id == sid;
    assert Router.WellRouted(sid, cs) && cs[0] in cs;
    OfferedCandidate(subtasks, tools, Router.All, m, cs, cs[0]);
    FullyDeniedMeaning(c, {Read}, sid);
  }

  lemma ReadingToolIsAllowed(tools: Tools)
    requires RegistryOk(tools) && tools.vals.Keys == {"t"} && tools.vals["t"].manifest.scope == Read
    requires FindByCapability(tools, "c") != []
    ensures var c := Router.Route(OneStepPlan().subtasks, tools, Router.All).candidates;
            && FullyDenied(c, Gate(c, {Read})) == {} && Gate(c, {Read}).allowed != []
            && forall call :: call in Gate(c, {Read}).allowed ==> call.tool == "t"
  {
    var subtasks := OneStepPlan().subtasks;
    var c := Router.Route(subtasks, tools, Router.All).candidates;
    Router.RouteIds(subtasks, tools, Router.All);
    assert subtasks[0] in subtasks && "s" in c.vals;
    hide Router.Route;
    hide Gate, RegistryOk, FindByCapability;
    forall sid | sid in c.vals ensures sid !in FullyDenied(c, Gate(c, {Read})) {
      ReadingToolIsGranted(tools, sid);
    }
    assert "s" !in FullyDenied(c, Gate(c, {Read}));
    forall call | call in Gate(c, {Read}).allowed ensures call.tool == "t" {
      var k := AllowedInScope(subtasks, tools, Router.All, {Read}, call);
    }
  }

  lemma PlannedState(s: State)
    requires Reachable(s) && s.node.AtPlanner?
    ensures Reachable(PlannerNode(s, Planner()))
    ensures PlannerNode(s, Planner()).node.AtRouter? && PlannerNode(s, Planner()).plan == Some(OneStepPlan())
    ensures var t := PlannerNode(s, Planner()); t.tools == s.tools && t.mode == s.mode && t.scope == s.scope && t.replans == s.replans
  {
    assert Attempts(Planner(), Budget(None), 1, Original).outcome == Answer(OneStepPlan());
    hide Attempts, Reachable;
    ReachableNext(s, Plans(Planner()));
  }

  lemma RoutedState(s: State) returns (t: State)
    requires Reachable(s) && s.node.AtRouter? && s.plan.Some? && RegistryOk(s.tools)
    ensures Reachable(t) && t == RouterNode(s)
  {
    t := RouterNode(s);
    hide Reachable, RouterNode;
    ReachableNext(s, Routes);
  }

  lemma GatedState(s: State) returns (t: State)
    requires Reachable(s) && s.node.AtGate? && s.candidates.Some? && s.candidates.value.Valid()
    ensures Reachable(t) && t == GateNode(s)
  {
    t := GateNode(s);
    hide Reachable, GateNode;
    ReachableNext(s, Gates);
  }

  lemma ReadOnlySession(policy: ResolvePolicy, sequential: bool) returns (s: State)
    ensures Reachable(s) && s.node == AtExecutor && s.scope == {Read}
    ensures s.allowedCalls.Some? && s.allowedCalls.value != [] && forall c :: c in s.allowedCalls.value ==> c.tool == "t"
  {
    ReadingTool();
    hide Digest.OneTool;
    hide FindByCapability;
    ReadingToolIsAllowed(Digest.OneTool());
    var s0 := Initial({Read}, Digest.OneTool(), Router.All, policy, sequential);
    assert Reached(s0, {Read}, Digest.OneTool(), Router.All, policy, sequential, []);
    assert Reachable(s0);
    hide Reached, Reachable, PlannerNode, Gate, FullyDenied, RegistryOk;
    hide Router.Route;
    PlannedState(s0);
    var s1 := PlannerNode(s0, Planner());
    var s2 := RoutedState(s1);
    s := GatedState(s2);
  }

  /** The scope was {Read}, the routed tool reads, and a writing tool runs. */
  lemma WritingToolRuns(policy: ResolvePolicy, sequential: bool, replies: (nat, nat) -> Reply)
    returns (s: State, c: ToolCall, steps: seq<Executor.Step>, k: nat, j: nat)
    ensures Reachable(s) && s.node == AtExecutor && s.scope == {Read}
    ensures s.allowedCalls.Some? && c in s.allowedCalls.value && CanExecute(s, replies, 0.0, steps)
    ensures var x := ExecutionOf(s, replies, 0.0, steps);
            && k < |x.cfg.batches| && j < |x.cfg.batches[k]| && x.cfg.batches[k][j] == c
            && Invokes(x, k, j, WritingTool()) && WritingTool().manifest.scope == Write
  {
    s := ReadOnlySession(policy, sequential);
    c := s.allowedCalls.value[0];
    hide Reachable, CanExecute, Invokes, BatchCalls;
    var later: Tools := Empty().Put("t", WritingTool());
    steps, k, j := RunsOnLatest(s, replies, c, later);
  }
}
