/** The orchestration graph (src/orchestrator/graph.py) as a transition system:
    node functions over the shared state, two data-dependent edges, and an
    environment that may change the registry between any two node visits.  The
    planner, the tools and the model are arbitrary. */
module Orchestration {
  import opened Seqs
  import opened OrderedDict
  import opened Manifests
  import opened ToolIndex
  import opened Schedule
  import Router
  import opened Permissions
  import opened Invocation
  import Executor
  import PlanRuns
  import opened Llm
  import opened Resolver
  import opened Digest

  const MAX_REPLANS := 1

  datatype Node = AtPlanner | AtRouter | AtGate | AtExecutor | AtConflicts | AtResolver | AtAggregator | AtEnd | Crashed

  /** One visit of the router, and one of the gate. */
  datatype RouteVisit = RouteVisit(plan: Plan, tools: Tools)
  datatype GateVisit = GateVisit(candidates: Router.Candidates, gate: GateResult)

  /** One visit of the executor: a run of the barrier protocol. */
  datatype Execution = Execution(cfg: Executor.Config, tools: Tools, clock: real, steps: seq<Executor.Step>) {
    function End(): Option<Executor.State> {
      Executor.Run(cfg, Executor.Initial(tools, clock), steps)
    }
  }

  /** What the resolver met when it took up one conflict: the live registry, and
      how the adjudication came out. */
  datatype Verdict = Verdict(tools: Tools, reply: Outcome<Adjudication>)

  /** History, for stating what whole runs do; one verdict per resolution. */
  datatype Log = Log(
    plannerInputs: seq<Option<seq<Denial>>>, routes: seq<RouteVisit>, gates: seq<GateVisit>,
    executions: seq<Execution>, resolverVisits: nat, aggregations: nat, nodeSteps: nat, modelCalls: nat, verdicts: seq<Verdict>)

  /** `answer` is the digest the final answer was written from. */
  datatype State = State(
    node: Node,
    scope: set<Scope>, tools: Tools, mode: Router.RouterMode, policy: ResolvePolicy, sequential: bool,
    plan: Option<Plan>, pendingDenials: Option<seq<Denial>>, allDenials: seq<Denial>, replans: nat,
    candidates: Option<Router.Candidates>, unroutable: seq<string>,
    allowedCalls: Option<seq<ToolCall>>, results: Option<seq<ToolResult>>, batches: seq<BatchReport>,
    conflicts: Option<seq<Conflict>>, resolutions: seq<Resolution>, answer: Option<seq<Line>>,
    log: Log)

  datatype Action =
    | Plans(model: (nat, Prompt) -> ChatReply<Plan>)
    | Routes
    | Gates
    | Executes(replies: (nat, nat) -> Reply, clock: real, steps: seq<Executor.Step>)
    | Checks
    | Resolves(toolsAt: nat -> Tools, models: nat -> ((nat, Prompt) -> ChatReply<Adjudication>))
    | Aggregates
    | Environment(tools: Tools)

  function Initial(scope: set<Scope>, tools: Tools, mode: Router.RouterMode, policy: ResolvePolicy, sequential: bool): State {
    State(AtPlanner, scope, tools, mode, policy, sequential, None, None, [], 0, None, [], None, None, [], None, [], None,
          Log([], [], [], [], 0, 0, 0, 0, []))
  }

  /** `registry or REGISTRY`: an empty registry is falsy, so it is replaced by
      the global one just as a missing one is. */
  function ChosenRegistry(given: Option<Tools>, global: Tools): Tools {
    if given.Some? && |given.value.keys| != 0 then given.value else global
  }

  // ----- Nodes

  function PlannerNode(s: State, model: (nat, Prompt) -> ChatReply<Plan>): State {
    var x := Attempts(model, Budget(None), 1, Original);
    var log := s.log.(plannerInputs := s.log.plannerInputs + [s.pendingDenials],
                      nodeSteps := s.log.nodeSteps + 1, modelCalls := s.log.modelCalls + |x.sent|);
    match x.outcome
    case Answer(p) => s.(node := AtRouter, plan := Some(p), pendingDenials := None, log := log)
    case _ => s.(node := Crashed, log := log)
  }

  function RouterNode(s: State): State
    requires s.plan.Some? && s.tools.Valid()
  {
    var r := Router.Route(s.plan.value.subtasks, s.tools, s.mode);
    s.(node := AtGate, candidates := Some(r.candidates), unroutable := r.unroutable,
       log := s.log.(routes := s.log.routes + [RouteVisit(s.plan.value, s.tools)], nodeSteps := s.log.nodeSteps + 1))
  }

  function GateNode(s: State): State
    requires s.candidates.Some? && s.candidates.value.Valid()
  {
    var gate := Gate(s.candidates.value, s.scope);
    var shouldReplan := FullyDenied(s.candidates.value, gate) != {} && s.replans < MAX_REPLANS;
    s.(node := if shouldReplan then AtPlanner else AtExecutor,
       allowedCalls := Some(gate.allowed), allDenials := s.allDenials + gate.denials,
       pendingDenials := if shouldReplan then Some(gate.denials) else s.pendingDenials,
       replans := s.replans + (if shouldReplan then 1 else 0),
       log := s.log.(gates := s.log.gates + [GateVisit(s.candidates.value, gate)], nodeSteps := s.log.nodeSteps + 1))
  }

  function ExecConfig(s: State, replies: (nat, nat) -> Reply): Executor.Config
    requires s.plan.Some? && s.allowedCalls.Some?
  {
    Executor.Config(BatchCalls(s.plan.value, s.allowedCalls.value), s.sequential, replies)
  }

  /** The executor node performs one complete run of the barrier protocol. */
  predicate CanExecute(s: State, replies: (nat, nat) -> Reply, clock: real, steps: seq<Executor.Step>) {
    s.plan.Some? && s.allowedCalls.Some? &&
    var cfg := ExecConfig(s, replies);
    var end := Executor.Run(cfg, Executor.Initial(s.tools, clock), steps);
    end.Some? && Executor.Complete(cfg, end.value)
  }

  function ExecutorNode(s: State, replies: (nat, nat) -> Reply, clock: real, steps: seq<Executor.Step>): State
    requires CanExecute(s, replies, clock, steps)
  {
    var end := Executor.Run(ExecConfig(s, replies), Executor.Initial(s.tools, clock), steps).value;
    s.(node := AtConflicts, results := Some(Executor.AllResults(end)), batches := end.reports, tools := end.tools,
       log := s.log.(executions := s.log.executions + [Execution(ExecConfig(s, replies), s.tools, clock, steps)], nodeSteps := s.log.nodeSteps + 1))
  }

  function ConflictsNode(s: State): State
    requires s.results.Some?
  {
    var cs := Conflicts(s.results.value);
    s.(node := if cs != [] then AtResolver else AtAggregator, conflicts := Some(cs),
       log := s.log.(nodeSteps := s.log.nodeSteps + 1))
  }

  function Adjudicated(models: nat -> ((nat, Prompt) -> ChatReply<Adjudication>)): nat -> Outcome<Adjudication> {
    (i: nat) => Attempts(models(i), Budget(None), 1, Original).outcome
  }

  function AdjudicationCalls(models: nat -> ((nat, Prompt) -> ChatReply<Adjudication>), n: nat): nat {
    if n == 0 then 0 else AdjudicationCalls(models, n - 1) + |Attempts(models(n - 1), Budget(None), 1, Original).sent|
  }

  function Verdicts(n: nat, toolsAt: nat -> Tools, replies: nat -> Outcome<Adjudication>): seq<Verdict> {
    seq(n, i requires 0 <= i < n => Verdict(toolsAt(i), replies(i)))
  }

  function ResolverNode(s: State, toolsAt: nat -> Tools, models: nat -> ((nat, Prompt) -> ChatReply<Adjudication>)): State
    requires s.conflicts.Some? && forall c :: c in s.conflicts.value ==> c.results != []
  {
    var n := |s.conflicts.value|;
    s.(node := AtAggregator, resolutions := ResolveAll(s.conflicts.value, s.policy, toolsAt, Adjudicated(models)),
       log := s.log.(resolverVisits := s.log.resolverVisits + 1, nodeSteps := s.log.nodeSteps + 1,
                     modelCalls := s.log.modelCalls + (if s.policy.ByModel? then AdjudicationCalls(models, n) else 0),
                     verdicts := Verdicts(n, toolsAt, Adjudicated(models))))
  }

  function FactsOf(s: State): Facts
    requires s.plan.Some? && s.results.Some?
  {
    Facts(s.plan.value, s.results.value, if s.conflicts.Some? then s.conflicts.value else [], s.resolutions, s.allDenials, s.unroutable)
  }

  /** One model call; the digest stands whether or not it succeeds. */
  function AggregatorNode(s: State): State
    requires s.plan.Some? && s.results.Some?
  {
    var lines := Summary(FactsOf(s));
    s.(node := if lines.Some? then AtEnd else Crashed, answer := lines,
       log := s.log.(aggregations := s.log.aggregations + 1, nodeSteps := s.log.nodeSteps + 1, modelCalls := s.log.modelCalls + 1))
  }

  // ----- Runs

  predicate Enabled(s: State, a: Action) {
    match a
    case Plans(_) => s.node.AtPlanner?
    case Routes => s.node.AtRouter? && s.plan.Some? && s.tools.Valid()
    case Gates => s.node.AtGate? && s.candidates.Some? && s.candidates.value.Valid()
    case Executes(replies, clock, steps) => s.node.AtExecutor? && CanExecute(s, replies, clock, steps)
    case Checks => s.node.AtConflicts? && s.results.Some?
    case Resolves(_, _) => s.node.AtResolver? && s.conflicts.Some? && forall c :: c in s.conflicts.value ==> c.results != []
    case Aggregates => s.node.AtAggregator? && s.plan.Some? && s.results.Some?
    case Environment(tools) => RegistryOk(tools)
  }

  function Next(s: State, a: Action): State
    requires Enabled(s, a)
  {
    match a
    case Plans(model) => PlannerNode(s, model)
    case Routes => RouterNode(s)
    case Gates => GateNode(s)
    case Executes(replies, clock, steps) => ExecutorNode(s, replies, clock, steps)
    case Checks => ConflictsNode(s)
    case Resolves(toolsAt, models) => ResolverNode(s, toolsAt, models)
    case Aggregates => AggregatorNode(s)
    case Environment(tools) => s.(tools := tools)
  }

  function Run(s: State, actions: seq<Action>): Option<State> {
    if actions == [] then Some(s) else
      var before := Run(s, actions[..|actions| - 1]);
      var a := actions[|actions| - 1];
      if before.Some? && Enabled(before.value, a) then Some(Next(before.value, a)) else None
  }

  // ----- Invariant: control

  /** Node steps still possible. */
  function Rank(s: State): nat {
    match s.node
    case AtPlanner => if s.replans == 0 then 10 else 7
    case AtRouter => if s.replans == 0 then 9 else 6
    case AtGate => if s.replans == 0 then 8 else 5
    case AtExecutor => 4
    case AtConflicts => 3
    case AtResolver => 2
    case AtAggregator => 1
    case _ => 0
  }

  predicate Before(n: Node) {
    n.AtPlanner? || n.AtRouter? || n.AtGate?
  }

  predicate FromPlan(s: State, visit: GateVisit, route: RouteVisit) {
    && RegistryOk(route.tools)
    && visit.candidates == Router.Route(route.plan.subtasks, route.tools, s.mode).candidates
    && visit.gate == Gate(visit.candidates, s.scope)
  }

  function DenialsOf(gates: seq<GateVisit>): seq<Denial> {
    if gates == [] then [] else DenialsOf(gates[..|gates| - 1]) + gates[|gates| - 1].gate.denials
  }

  /** Where the run stands and how often each node has been visited. */
  predicate Positions(s: State) {
    var p, r, g := |s.log.plannerInputs|, |s.log.routes|, |s.log.gates|;
    && s.replans <= MAX_REPLANS
    && s.log.nodeSteps + Rank(s) <= 10
    && g <= r <= p <= g + 1
    && (s.node.AtPlanner? ==> p == r == g == s.replans)
    && (s.node.AtRouter? ==> p == s.replans + 1 && r == g == s.replans)
    && (s.node.AtGate? ==> p == r == s.replans + 1 && g == s.replans)
    && (!Before(s.node) && s.node != Crashed ==> p == r == g == s.replans + 1)
    && (s.node == Crashed ==> p == s.replans + 1 && r == g == s.replans)
    && |s.log.executions| == (if s.node in {AtConflicts, AtResolver, AtAggregator, AtEnd} then 1 else 0)
    && s.log.aggregations == (if s.node.AtEnd? then 1 else 0)
    && (s.node !in {AtAggregator, AtEnd} ==> s.resolutions == [] && s.log.verdicts == [] && s.log.resolverVisits == 0)
    && (s.node.AtResolver? ==> s.conflicts.Some? && s.conflicts.value != [])
    && (s.node in {AtAggregator, AtEnd} ==> s.conflicts.Some? && s.log.resolverVisits == if s.conflicts.value == [] then 0 else 1)
  }

  /** What the planner was told, and what each gate visit decided. */
  predicate Histories(s: State) {
    var p, g := |s.log.plannerInputs|, |s.log.gates|;
    && RegistryOk(s.tools)
    && s.allDenials == DenialsOf(s.log.gates)
    && (s.node.AtPlanner? && s.replans == 1 ==> g >= 1 && s.pendingDenials == Some(s.log.gates[0].gate.denials))
    && (!(s.node.AtPlanner? && s.replans == 1) && s.node != Crashed ==> s.pendingDenials == None)
    && (p > 0 ==> s.log.plannerInputs[0] == None)
    && (p > 1 ==> g >= 1 && s.log.plannerInputs[1] == Some(s.log.gates[0].gate.denials))
    && (g >= 1 ==> (s.replans == 1 <==> FullyDenied(s.log.gates[0].candidates, s.log.gates[0].gate) != {}))
    && (forall i :: 0 <= i < g ==> i < |s.log.routes| && FromPlan(s, s.log.gates[i], s.log.routes[i]))
  }

  /** Conflicts put to the model so far. */
  function ConflictsDecided(s: State): nat {
    if s.policy.ByModel? && s.node in {AtAggregator, AtEnd} && s.conflicts.Some? then |s.conflicts.value| else 0
  }

  /** Each planner visit, each adjudication and the aggregation cost a model call,
      the first two at most one more. */
  predicate CallsBounded(s: State) {
    |s.log.plannerInputs| + ConflictsDecided(s) + s.log.aggregations <= s.log.modelCalls
      <= 2 * |s.log.plannerInputs| + 2 * ConflictsDecided(s) + s.log.aggregations
  }

  // ----- Invariant: data

  predicate Rerouted(s: State) {
    s.log.routes != [] &&
    var v := s.log.routes[|s.log.routes| - 1];
    && s.plan == Some(v.plan) && RegistryOk(v.tools)
    && s.candidates == Some(Router.Route(v.plan.subtasks, v.tools, s.mode).candidates)
    && s.unroutable == Router.Route(v.plan.subtasks, v.tools, s.mode).unroutable
  }

  predicate Gated(s: State) {
    Rerouted(s) && s.allowedCalls == Some(Gate(s.candidates.value, s.scope).allowed)
  }

  /** The results and reports are those of the one execution on record, a
      completed run over the batches of the current plan's allowed calls. */
  ghost predicate Ran(s: State) {
    && s.plan.Some? && s.allowedCalls.Some? && |s.log.executions| == 1
    && var x := s.log.executions[0];
    && RegistryOk(x.tools) && x.cfg.batches == BatchCalls(s.plan.value, s.allowedCalls.value) && x.cfg.sequential == s.sequential
    && x.End().Some? && Executor.Complete(x.cfg, x.End().value)
    && s.results == Some(Executor.AllResults(x.End().value)) && s.batches == x.End().value.reports
  }

  /** The results are the allowed calls' results. */
  ghost predicate Executed(s: State) {
    && Gated(s) && s.results.Some? && Ran(s)
    && multiset(Map(PlanRuns.ResultPair, s.results.value)) == multiset(Map(PlanRuns.CallPair, s.allowedCalls.value))
    && |s.results.value| == |s.allowedCalls.value| == PlanRuns.TotalCalls(s.batches)
    && (forall sid :: PlanRuns.AnswerList(CallsFor(s.allowedCalls.value, sid), Filter(PlanRuns.Of(sid), s.results.value)))
  }

  predicate DecidedBy(c: Conflict, policy: ResolvePolicy, v: Verdict, res: Resolution) {
    c.results != [] && res == ResolveOne(c, policy, v.tools, v.reply)
  }

  ghost predicate Checked(s: State) {
    Executed(s) && s.conflicts == Some(Conflicts(s.results.value))
  }

  ghost predicate Decided(s: State) {
    && Checked(s) && |s.log.verdicts| == |s.resolutions| == |s.conflicts.value|
    && forall i :: 0 <= i < |s.resolutions| ==>
         DecidedBy(s.conflicts.value[i], s.policy, s.log.verdicts[i], s.resolutions[i])
  }

  ghost predicate Data(s: State) {
    match s.node
    case AtPlanner => true
    case AtRouter => s.plan.Some?
    case AtGate => Rerouted(s)
    case AtExecutor => Gated(s)
    case AtConflicts => Executed(s)
    case AtResolver => Checked(s)
    case AtAggregator => Decided(s)
    case AtEnd => Decided(s) && s.answer.Some? && s.answer == Summary(FactsOf(s))
    case Crashed => true
  }

  // ----- Preservation

  ghost predicate Inv(s: State) {
    Positions(s) && Histories(s) && Data(s) && CallsBounded(s)
  }

  lemma PlannerCalls<T(!new)>(model: (nat, Prompt) -> ChatReply<T>)
    ensures 1 <= |Attempts(model, Budget(None), 1, Original).sent| <= 2
  {
    AttemptsMeaning(model, Budget(None), 1, Original);
  }

  lemma {:induction false} AdjudicationBound(models: nat -> ((nat, Prompt) -> ChatReply<Adjudication>), n: nat)
    ensures n <= AdjudicationCalls(models, n) <= 2 * n
  {
    if n > 0 {
      AdjudicationBound(models, n - 1);
      PlannerCalls(models(n - 1));
    }
  }

  lemma SameVisits(s: State, t: State)
    requires Histories(s) && t.log.gates == s.log.gates && s.log.routes <= t.log.routes && t.mode == s.mode && t.scope == s.scope
    ensures forall i :: 0 <= i < |t.log.gates| ==> i < |t.log.routes| && FromPlan(t, t.log.gates[i], t.log.routes[i])
  {
    forall i | 0 <= i < |t.log.gates| ensures i < |t.log.routes| && FromPlan(t, t.log.gates[i], t.log.routes[i]) {
      assert FromPlan(s, s.log.gates[i], s.log.routes[i]);
    }
  }

  lemma PlannerKeepsHistories(s: State, model: (nat, Prompt) -> ChatReply<Plan>)
    requires Positions(s) && Histories(s) && s.node.AtPlanner?
    ensures Histories(PlannerNode(s, model))
  {
    SameVisits(s, PlannerNode(s, model));
    hide Attempts, DenialsOf, FromPlan, FullyDenied;
  }

  lemma PlannerKeepsPositions(s: State, model: (nat, Prompt) -> ChatReply<Plan>)
    requires Positions(s) && CallsBounded(s) && s.node.AtPlanner?
    ensures Positions(PlannerNode(s, model))
    ensures CallsBounded(PlannerNode(s, model))
  {
    PlannerCalls(model);
    hide Attempts;
  }

  lemma PlannerKeepsInv(s: State, model: (nat, Prompt) -> ChatReply<Plan>)
    requires Inv(s) && s.node.AtPlanner?
    ensures Inv(PlannerNode(s, model))
  {
    PlannerKeepsPositions(s, model);
    PlannerKeepsHistories(s, model);
    hide Attempts, Positions, Histories, CallsBounded, Rerouted, Gated, Executed, Checked, Decided;
  }

  lemma RouterKeepsPositions(s: State)
    requires Positions(s) && CallsBounded(s) && Enabled(s, Routes)
    ensures Positions(RouterNode(s)) && CallsBounded(RouterNode(s))
  {
    hide Router.Route;
  }

  lemma RouterKeepsHistories(s: State)
    requires Positions(s) && Histories(s) && Enabled(s, Routes)
    ensures Histories(RouterNode(s))
  {
    SameVisits(s, RouterNode(s));
    hide DenialsOf, FromPlan, FullyDenied;
    hide Router.Route;
  }

  lemma RouterKeepsInv(s: State)
    requires Inv(s) && Enabled(s, Routes)
    ensures Inv(RouterNode(s))
  {
    assert RegistryOk(s.tools);
    RouterKeepsPositions(s);
    RouterKeepsHistories(s);
    hide Positions, Histories, CallsBounded, Gated, Executed, Checked, Decided;
    hide Router.Route;
  }

  lemma GateVisited(s: State)
    requires Positions(s) && Histories(s) && Rerouted(s) && s.node.AtGate?
    ensures var t := GateNode(s);
            forall i :: 0 <= i < |t.log.gates| ==> i < |t.log.routes| && FromPlan(t, t.log.gates[i], t.log.routes[i])
  {
    hide Gate, FullyDenied, DenialsOf;
    hide Router.Route;
    var t := GateNode(s);
    forall i | 0 <= i < |t.log.gates| ensures i < |t.log.routes| && FromPlan(t, t.log.gates[i], t.log.routes[i]) {
      if i < |s.log.gates| { assert FromPlan(s, s.log.gates[i], s.log.routes[i]); }
    }
  }

  lemma GateDenials(s: State)
    requires Histories(s) && Rerouted(s) && s.node.AtGate?
    ensures GateNode(s).allDenials == DenialsOf(GateNode(s).log.gates)
  {
    assert GateNode(s).log.gates[..|s.log.gates|] == s.log.gates;
    hide Gate, FullyDenied, FromPlan;
  }

  lemma GateFlags(s: State)
    requires Positions(s) && Histories(s) && Rerouted(s) && s.node.AtGate?
    ensures var t := GateNode(s);
            && t.log.gates != []
            && (t.replans == 1 <==> FullyDenied(t.log.gates[0].candidates, t.log.gates[0].gate) != {})
            && (t.node.AtPlanner? ==> t.pendingDenials == Some(t.log.gates[0].gate.denials))
            && (|t.log.plannerInputs| > 1 ==> t.log.plannerInputs[1] == Some(t.log.gates[0].gate.denials))
  {
    hide Gate, FullyDenied, FromPlan, DenialsOf;
    hide Router.Route;
  }

  lemma GateKeepsHistories(s: State)
    requires Positions(s) && Histories(s) && Rerouted(s) && s.node.AtGate?
    ensures Histories(GateNode(s))
  {
    GateVisited(s);
    GateDenials(s);
    GateFlags(s);
    hide Gate, FullyDenied, FromPlan, Rerouted, DenialsOf;
    hide Router.Route;
  }

  lemma GateKeepsPositions(s: State)
    requires Positions(s) && CallsBounded(s) && s.node.AtGate? && s.candidates.Some? && s.candidates.value.Valid()
    ensures Positions(GateNode(s)) && CallsBounded(GateNode(s))
  {
    hide Gate, FullyDenied;
  }

  lemma GateKeepsData(s: State)
    requires Rerouted(s) && s.node.AtGate?
    ensures Data(GateNode(s))
  {
    hide Gate, FullyDenied;
    hide Router.Route;
  }

  lemma GateKeepsInv(s: State)
    requires Inv(s) && Enabled(s, Gates)
    ensures Inv(GateNode(s))
  {
    assert Rerouted(s);
    GateKeepsPositions(s);
    GateKeepsHistories(s);
    GateKeepsData(s);
    hide GateNode, Positions, Histories, CallsBounded, Data;
  }

  lemma ExecutionFacts(s: State, replies: (nat, nat) -> Reply, clock: real, steps: seq<Executor.Step>)
    requires Gated(s) && RegistryOk(s.tools) && CanExecute(s, replies, clock, steps)
    ensures var t := ExecutorNode(s, replies, clock, steps);
            && RegistryOk(t.tools)
            && PlanRuns.TotalCalls(t.batches) == |t.results.value|
  {
    var cfg := ExecConfig(s, replies);
    hide Gated, BatchCalls;
    Executor.RunKeepsInv(cfg, s.tools, clock, steps);
    PlanRuns.CountsAddUp(cfg, s.tools, clock, steps);
    hide Executor.Run, Executor.TraceOk;
  }

  lemma ExecutionConserves(s: State, replies: (nat, nat) -> Reply, clock: real, steps: seq<Executor.Step>)
    requires Gated(s) && RegistryOk(s.tools) && CanExecute(s, replies, clock, steps)
    ensures var rs := ExecutorNode(s, replies, clock, steps).results.value;
            && multiset(Map(PlanRuns.ResultPair, rs)) == multiset(Map(PlanRuns.CallPair, s.allowedCalls.value))
            && |rs| == |s.allowedCalls.value|
            && (forall sid :: PlanRuns.AnswerList(CallsFor(s.allowedCalls.value, sid), Filter(PlanRuns.Of(sid), rs)))
  {
    var cfg := ExecConfig(s, replies);
    var v := s.log.routes[|s.log.routes| - 1];
    AllowedBelongToPlan(v.plan, v.tools, s.mode, s.scope);
    hide Executor.Run, Executor.AllResults;
    hide Router.Route;
    hide Gate, BatchCalls, Filter, Map;
    PlanRuns.RunConserves(cfg, s.plan.value, s.allowedCalls.value, s.tools, clock, steps);
    PlanRuns.AllCallsPlanned(s.plan.value, s.allowedCalls.value);
    var rs := ExecutorNode(s, replies, clock, steps).results.value;
    forall sid ensures PlanRuns.AnswerList(CallsFor(s.allowedCalls.value, sid), Filter(PlanRuns.Of(sid), rs)) {
      NoForeignCalls(s.plan.value, s.allowedCalls.value, sid);
    }
  }

  lemma NoForeignCalls(plan: Plan, calls: seq<ToolCall>, sid: string)
    requires Runnable(calls) <= Ids(plan.subtasks)
    ensures sid !in Ids(plan.subtasks) ==> CallsFor(calls, sid) == []
  {
    if sid !in Ids(plan.subtasks) { FilterNone(OfSubtask(sid), calls); }
  }

  lemma ExecutorKeepsData(s: State, replies: (nat, nat) -> Reply, clock: real, steps: seq<Executor.Step>)
    requires Gated(s) && RegistryOk(s.tools) && s.log.executions == [] && CanExecute(s, replies, clock, steps)
    ensures Executed(ExecutorNode(s, replies, clock, steps))
  {
    ExecutionFacts(s, replies, clock, steps);
    ExecutionConserves(s, replies, clock, steps);
    hide Executor.Run, Executor.AllResults, Executor.Complete;
    hide Router.Route;
    hide Gate, BatchCalls, Filter, Map, PlanRuns.AnswerList, PlanRuns.TotalCalls;
  }

  /** Every allowed call was routed for a subtask of the plan. */
  lemma AllowedBelongToPlan(plan: Plan, tools: Tools, mode: Router.RouterMode, scope: set<Scope>)
    requires RegistryOk(tools)
    ensures var c := Router.Route(plan.subtasks, tools, mode).candidates;
            Runnable(Gate(c, scope).allowed) <= Ids(plan.subtasks)
  {
    var c := Router.Route(plan.subtasks, tools, mode).candidates;
    RoutedByRoute(plan.subtasks, tools, mode);
    GateMeaning(c, scope);
    Router.RouteIds(plan.subtasks, tools, mode);
    hide Gate;
    hide Router.Route;
  }

  lemma SameHistories(s: State, t: State)
    requires Histories(s) && t.log.gates == s.log.gates && t.log.routes == s.log.routes && t.mode == s.mode && t.scope == s.scope
    requires RegistryOk(t.tools) && t.allDenials == s.allDenials && t.pendingDenials == s.pendingDenials
    requires t.log.plannerInputs == s.log.plannerInputs && t.replans == s.replans
    requires t.node == s.node || (!Before(s.node) && !Before(t.node) && s.node != Crashed)
    ensures Histories(t)
  {
    SameVisits(s, t);
    hide DenialsOf, FromPlan, FullyDenied;
  }

  lemma ExecutorKeepsPositions(s: State, replies: (nat, nat) -> Reply, clock: real, steps: seq<Executor.Step>)
    requires Positions(s) && CallsBounded(s) && Enabled(s, Executes(replies, clock, steps))
    ensures Positions(ExecutorNode(s, replies, clock, steps)) && CallsBounded(ExecutorNode(s, replies, clock, steps))
  {
    hide Executor.Run, Executor.AllResults, Executor.Complete, ExecConfig;
  }

  lemma ExecutorKeepsInv(s: State, replies: (nat, nat) -> Reply, clock: real, steps: seq<Executor.Step>)
    requires Inv(s) && Enabled(s, Executes(replies, clock, steps))
    ensures Inv(ExecutorNode(s, replies, clock, steps))
  {
    var t := ExecutorNode(s, replies, clock, steps);
    assert Gated(s) && RegistryOk(s.tools) && s.log.executions == [];
    ExecutionFacts(s, replies, clock, steps);
    ExecutorKeepsPositions(s, replies, clock, steps);
    ExecutorKeepsData(s, replies, clock, steps);
    hide Executor.Run, Executor.AllResults, Executor.Complete, ExecConfig;
    hide Executed, Gated, Histories, Rerouted, Checked, Decided, Positions, CallsBounded;
    SameHistories(s, t);
  }

  lemma CheckedAfterConflicts(s: State)
    requires Executed(s)
    ensures Checked(ConflictsNode(s))
  {
    hide Conflicts, Filter, Map, Gate;
    hide Router.Route;
    hide PlanRuns.AnswerList, PlanRuns.TotalCalls;
  }

  lemma ConflictsKeepsPositions(s: State)
    requires Positions(s) && CallsBounded(s) && Enabled(s, Checks)
    ensures Positions(ConflictsNode(s)) && CallsBounded(ConflictsNode(s))
  {
    hide Conflicts;
  }

  lemma ConflictsKeepsHistories(s: State)
    requires Histories(s) && Enabled(s, Checks)
    ensures Histories(ConflictsNode(s))
  {
    assert RegistryOk(s.tools);
    hide Conflicts, Histories;
    SameHistories(s, ConflictsNode(s));
  }

  lemma ConflictsNodeData(s: State)
    requires s.results.Some? && s.resolutions == [] && s.log.verdicts == [] && Checked(ConflictsNode(s))
    ensures Data(ConflictsNode(s))
  {
    hide Executed, Conflicts;
  }

  lemma ReadyToCheck(s: State)
    requires Positions(s) && Data(s) && s.node.AtConflicts?
    ensures Executed(s) && s.resolutions == [] && s.log.verdicts == []
  {
    hide Executed;
  }

  lemma ConflictsKeepsInv(s: State)
    requires Inv(s) && Enabled(s, Checks)
    ensures Inv(ConflictsNode(s))
  {
    hide Data, Positions, Histories, CallsBounded, Executed, Checked, ConflictsNode;
    ReadyToCheck(s);
    ConflictsKeepsPositions(s);
    ConflictsKeepsHistories(s);
    CheckedAfterConflicts(s);
    ConflictsNodeData(s);
  }

  lemma ResolverKeepsData(s: State, toolsAt: nat -> Tools, models: nat -> ((nat, Prompt) -> ChatReply<Adjudication>))
    requires Checked(s) && Enabled(s, Resolves(toolsAt, models))
    ensures Decided(ResolverNode(s, toolsAt, models))
  {
    var t := ResolverNode(s, toolsAt, models);
    hide Conflicts, Adjudicated, AdjudicationCalls, ResolveOne;
    hide Router.Route;
    hide Gate, Filter, Map, PlanRuns.AnswerList, PlanRuns.TotalCalls;
    forall i | 0 <= i < |t.resolutions|
      ensures DecidedBy(t.conflicts.value[i], t.policy, t.log.verdicts[i], t.resolutions[i])
    {
      assert t.conflicts.value[i] in s.conflicts.value;
    }
    hide DecidedBy;
  }

  lemma ResolverKeepsPositions(s: State, toolsAt: nat -> Tools, models: nat -> ((nat, Prompt) -> ChatReply<Adjudication>))
    requires Positions(s) && CallsBounded(s) && Enabled(s, Resolves(toolsAt, models))
    ensures Positions(ResolverNode(s, toolsAt, models)) && CallsBounded(ResolverNode(s, toolsAt, models))
  {
    AdjudicationBound(models, |s.conflicts.value|);
    hide AdjudicationCalls, ResolveAll;
  }

  lemma ResolverKeepsInv(s: State, toolsAt: nat -> Tools, models: nat -> ((nat, Prompt) -> ChatReply<Adjudication>))
    requires Inv(s) && Enabled(s, Resolves(toolsAt, models))
    ensures Inv(ResolverNode(s, toolsAt, models))
  {
    assert RegistryOk(s.tools) && Checked(s);
    ResolverKeepsPositions(s, toolsAt, models);
    ResolverKeepsData(s, toolsAt, models);
    hide Histories;
    ResolverKeepsHistories(s, toolsAt, models);
    hide ResolverNode, Decided, Positions, CallsBounded;
  }

  lemma ResolverKeepsHistories(s: State, toolsAt: nat -> Tools, models: nat -> ((nat, Prompt) -> ChatReply<Adjudication>))
    requires Histories(s) && Enabled(s, Resolves(toolsAt, models))
    ensures Histories(ResolverNode(s, toolsAt, models)) && ResolverNode(s, toolsAt, models).node.AtAggregator?
  {
    assert RegistryOk(s.tools);
    hide ResolveAll, AdjudicationCalls, Histories;
    SameHistories(s, ResolverNode(s, toolsAt, models));
  }

  lemma DecidedIsSettled(s: State)
    requires Decided(s)
    ensures Settled(FactsOf(s))
  {
    var f := FactsOf(s);
    assert f.conflicts == Conflicts(f.results) && f.conflicts == s.conflicts.value;
    hide Executed, Conflicts, ResolveOne;
    forall i | 0 <= i < |f.conflicts|
      ensures f.resolutions[i].subtaskId == f.conflicts[i].subtaskId
              && exists w :: w in f.conflicts[i].results && w.tool == f.resolutions[i].chosenTool
    {
      assert DecidedBy(f.conflicts[i], s.policy, s.log.verdicts[i], f.resolutions[i]);
      ResolutionMeaning(f.conflicts[i], s.policy, s.log.verdicts[i].tools, s.log.verdicts[i].reply);
    }
  }

  /** t has the same work products as s. */
  ghost predicate SameWork(s: State, t: State) {
    && t.scope == s.scope && t.mode == s.mode && t.policy == s.policy && t.sequential == s.sequential
    && t.plan == s.plan && t.candidates == s.candidates && t.unroutable == s.unroutable
    && t.allowedCalls == s.allowedCalls && t.results == s.results && t.batches == s.batches
    && t.conflicts == s.conflicts && t.resolutions == s.resolutions && t.allDenials == s.allDenials
    && t.log.routes == s.log.routes && t.log.executions == s.log.executions && t.log.verdicts == s.log.verdicts
  }

  lemma SameRouting(s: State, t: State)
    requires SameWork(s, t)
    ensures Rerouted(s) ==> Rerouted(t)
    ensures Gated(s) ==> Gated(t)
  {
    hide Gate;
    hide Router.Route;
  }

  lemma SameExecution(s: State, t: State)
    requires SameWork(s, t) && Executed(s)
    ensures Executed(t)
  {
    SameRouting(s, t);
    hide Gated, Filter, Map, PlanRuns.AnswerList, PlanRuns.TotalCalls;
  }

  lemma SameDecision(s: State, t: State)
    requires SameWork(s, t) && Decided(s)
    ensures Decided(t)
  {
    SameExecution(s, t);
    hide Executed, Conflicts, DecidedBy;
  }

  lemma AnsweredData(s: State)
    requires Decided(s) && s.node.AtAggregator? && Summary(FactsOf(s)).Some?
    ensures Data(AggregatorNode(s))
  {
    assert FactsOf(AggregatorNode(s)) == FactsOf(s);
    SameDecision(s, AggregatorNode(s));
    hide Summary, Decided;
  }

  lemma AggregatorKeepsHistories(s: State)
    requires Histories(s) && Enabled(s, Aggregates) && Summary(FactsOf(s)).Some?
    ensures Histories(AggregatorNode(s))
  {
    assert RegistryOk(s.tools);
    hide Summary, Histories, FactsOf;
    SameHistories(s, AggregatorNode(s));
  }

  lemma AggregatorKeepsPositions(s: State)
    requires Positions(s) && CallsBounded(s) && Enabled(s, Aggregates) && Summary(FactsOf(s)).Some?
    ensures Positions(AggregatorNode(s)) && CallsBounded(AggregatorNode(s))
  {
    hide Summary, FactsOf;
  }

  lemma ReadyToAggregate(s: State)
    requires Data(s) && s.node.AtAggregator?
    ensures Decided(s)
  {
    hide Decided;
  }

  lemma AggregatorKeepsInv(s: State)
    requires Inv(s) && Enabled(s, Aggregates)
    ensures Inv(AggregatorNode(s))
  {
    assert s.node.AtAggregator?;
    hide Positions, Histories, CallsBounded, Data, Decided, Settled, Summary, AggregatorNode, Enabled, FactsOf;
    ReadyToAggregate(s);
    DecidedIsSettled(s);
    DigestIsTotal(FactsOf(s));
    AggregatorKeepsHistories(s);
    AggregatorKeepsPositions(s);
    AnsweredData(s);
  }

  lemma EnvironmentKeepsData(s: State, tools: Tools)
    requires Data(s) && RegistryOk(tools)
    ensures Data(Next(s, Environment(tools)))
  {
    var t := Next(s, Environment(tools));
    assert SameWork(s, t) && t.node == s.node && t.answer == s.answer && t.plan == s.plan;
    hide Next;
    if s.node in {AtAggregator, AtEnd} {
      SameDecision(s, t);
      hide Rerouted, Gated, Decided, Conflicts, Summary;
    } else if s.node in {AtConflicts, AtResolver} {
      SameExecution(s, t);
      hide Rerouted, Gated, Executed, Decided, Conflicts, Summary;
    } else {
      SameRouting(s, t);
      hide Rerouted, Gated, Executed, Checked, Decided, Summary;
    }
  }

  lemma EnvironmentKeepsHistories(s: State, tools: Tools)
    requires Histories(s) && RegistryOk(tools)
    ensures Histories(Next(s, Environment(tools)))
  {
    hide Histories;
    SameHistories(s, Next(s, Environment(tools)));
  }

  lemma EnvironmentKeepsInv(s: State, tools: Tools)
    requires Inv(s) && RegistryOk(tools)
    ensures Inv(Next(s, Environment(tools)))
  {
    hide Data, Histories, Positions, CallsBounded;
    EnvironmentKeepsPositions(s, tools);
    EnvironmentKeepsData(s, tools);
    EnvironmentKeepsHistories(s, tools);
  }

  lemma EnvironmentKeepsPositions(s: State, tools: Tools)
    requires Positions(s) && CallsBounded(s) && RegistryOk(tools)
    ensures Positions(Next(s, Environment(tools))) && CallsBounded(Next(s, Environment(tools)))
  {
  }

  lemma NextKeepsInv(s: State, a: Action)
    requires Inv(s) && Enabled(s, a)
    ensures Inv(Next(s, a))
  {
    hide Inv, CanExecute;
    match a {
      case Plans(model) => PlannerKeepsInv(s, model);
      case Routes => RouterKeepsInv(s);
      case Gates => GateKeepsInv(s);
      case Executes(replies, clock, steps) => ExecutorKeepsInv(s, replies, clock, steps);
      case Checks => ConflictsKeepsInv(s);
      case Resolves(toolsAt, models) => ResolverKeepsInv(s, toolsAt, models);
      case Aggregates => AggregatorKeepsInv(s);
      case Environment(tools) => EnvironmentKeepsInv(s, tools);
    }
  }

  /** Every state of every run satisfies the invariant. */
  lemma {:induction false} RunKeepsInv(scope: set<Scope>, tools: Tools, mode: Router.RouterMode, policy: ResolvePolicy,
                                       sequential: bool, actions: seq<Action>)
    requires RegistryOk(tools) && Run(Initial(scope, tools, mode, policy, sequential), actions).Some?
    ensures Inv(Run(Initial(scope, tools, mode, policy, sequential), actions).value)
  {
    if actions != [] {
      var front := actions[..|actions| - 1];
      RunKeepsInv(scope, tools, mode, policy, sequential, front);
      hide Inv, Next, Enabled;
      NextKeepsInv(Run(Initial(scope, tools, mode, policy, sequential), front).value, actions[|actions| - 1]);
    }
  }

  // ----- Entry

  /** `run_orchestrator`: the state a request starts in. */
  function Start(scope: set<Scope>, given: Option<Tools>, global: Tools, mode: Router.RouterMode, policy: ResolvePolicy, sequential: bool): State {
    Initial(scope, ChosenRegistry(given, global), mode, policy, sequential)
  }

  /** A caller's own registry is used exactly when it is not empty (or the
      global one is empty too).  An isolated empty registry is silently replaced
      by the global one, whose tools then become routable; and so is none at
      all. */
  lemma CallersRegistryIsUsed(scope: set<Scope>, given: Tools, global: Tools, mode: Router.RouterMode, policy: ResolvePolicy, sequential: bool)
    requires RegistryOk(given) && RegistryOk(global)
    ensures Start(scope, Some(given), global, mode, policy, sequential).tools == given <==> |given.keys| != 0 || |global.keys| == 0
    ensures |given.keys| == 0 ==> Start(scope, Some(given), global, mode, policy, sequential).tools == global
    ensures Start(scope, None, global, mode, policy, sequential).tools == global
  {
    if |given.keys| == 0 {
      assert Elements(given.keys) == {} && given.vals == map[];
      if |global.keys| == 0 {
        assert Elements(global.keys) == {} && global.vals == map[];
      }
    }
  }

  lemma EmptyRegistryIsReplaced()
    ensures exists given: Tools, global: Tools, cap: string ::
              RegistryOk(given) && RegistryOk(global) && FindByCapability(given, cap) == []
              && FindByCapability(ChosenRegistry(Some(given), global), cap) != []
  {
    var given: Tools := Empty();
    var t := RegisteredTool(ToolManifest("a", "", ["c"], Read, 1, 10.0, map[]), 0);
    var global: Tools := Empty().Put("a", t);
    assert global.Values() == [t] && given.Values() == [];
    assert Filter(Offers("c"), [t]) == [t];
    assert SortByPriority([t]) == [t];
    assert RegistryOk(given) && RegistryOk(global) && FindByCapability(given, "c") == []
           && FindByCapability(ChosenRegistry(Some(given), global), "c") != [];
  }
}
