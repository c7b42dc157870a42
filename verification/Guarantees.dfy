/** What every run of the orchestrator guarantees
    (src/orchestrator/graph.py): control, hygiene and conservation. */
module Guarantees {
  import opened Seqs
  import opened OrderedDict
  import opened Manifests
  import opened ToolIndex
  import opened Schedule
  import Router
  import opened Permissions
  import Invocation
  import Executor
  import PlanRuns
  import opened Llm
  import opened Resolver
  import opened Digest
  import opened Orchestration

  /** s is reached by some run from a fresh request. */
  ghost predicate Reached(s: State, scope: set<Scope>, tools: Tools, mode: Router.RouterMode, policy: ResolvePolicy,
                          sequential: bool, actions: seq<Action>)
  {
    RegistryOk(tools) && Run(Initial(scope, tools, mode, policy, sequential), actions) == Some(s)
  }

  ghost predicate Reachable(s: State) {
    exists scope, tools, mode, policy, sequential, actions :: Reached(s, scope, tools, mode, policy, sequential, actions)
  }

  lemma ReachableInv(s: State)
    requires Reachable(s)
    ensures Inv(s)
  {
    hide Inv, Run;
    var scope, tools, mode, policy, sequential, actions :| Reached(s, scope, tools, mode, policy, sequential, actions);
    RunKeepsInv(scope, tools, mode, policy, sequential, actions);
  }

  lemma ReachableNext(s: State, a: Action)
    requires Reachable(s) && Enabled(s, a)
    ensures Reachable(Next(s, a))
  {
    hide Inv, Next, Enabled;
    var scope, tools, mode, policy, sequential, actions :| Reached(s, scope, tools, mode, policy, sequential, actions);
    var more := actions + [a];
    assert more[..|more| - 1] == actions;
    assert Reached(Next(s, a), scope, tools, mode, policy, sequential, more);
  }

  // ----- What was asked for

  /** Every run keeps the settings it was started with. */
  lemma {:induction false} SettingsKept(scope: set<Scope>, tools: Tools, mode: Router.RouterMode, policy: ResolvePolicy,
                                        sequential: bool, actions: seq<Action>, s: State)
    requires Run(Initial(scope, tools, mode, policy, sequential), actions) == Some(s)
    ensures s.scope == scope && s.mode == mode && s.policy == policy && s.sequential == sequential
  {
    if actions != [] {
      var front := actions[..|actions| - 1];
      var before := Run(Initial(scope, tools, mode, policy, sequential), front).value;
      SettingsKept(scope, tools, mode, policy, sequential, front, before);
      hide Run, Enabled;
      NodesKeepSettings(before, actions[|actions| - 1]);
    }
  }

  lemma NodesKeepSettings(s: State, a: Action)
    requires Enabled(s, a)
    ensures var t := Next(s, a); t.scope == s.scope && t.mode == s.mode && t.policy == s.policy && t.sequential == s.sequential
  {
    hide Attempts, Gate, FullyDenied, CanExecute, Conflicts, ResolveAll, Summary, FactsOf, AdjudicationCalls;
    hide Router.Route;
    hide Executor.Run, Executor.AllResults;
  }

  /** s is reached in the service of this request. */
  ghost predicate Requested(s: State, scope: set<Scope>, given: Option<Tools>, global: Tools, mode: Router.RouterMode,
                            policy: ResolvePolicy, sequential: bool, actions: seq<Action>)
  {
    && (given.Some? ==> RegistryOk(given.value)) && RegistryOk(global)
    && Run(Start(scope, given, global, mode, policy, sequential), actions) == Some(s)
  }

  /** What holds of every reachable state holds of every request, under the
      settings that were asked for. */
  lemma RequestIsServed(s: State, scope: set<Scope>, given: Option<Tools>, global: Tools, mode: Router.RouterMode,
                        policy: ResolvePolicy, sequential: bool, actions: seq<Action>)
    requires Requested(s, scope, given, global, mode, policy, sequential, actions)
    ensures Reachable(s) && s.scope == scope && s.mode == mode && s.policy == policy && s.sequential == sequential
  {
    hide Run, RegistryOk;
    var tools := ChosenRegistry(given, global);
    assert Reached(s, scope, tools, mode, policy, sequential, actions);
    SettingsKept(scope, tools, mode, policy, sequential, actions, s);
  }

  // ----- What the log records

  function IsPlans(): Action -> bool { (a: Action) => a.Plans? }
  function IsRoutes(): Action -> bool { (a: Action) => a.Routes? }
  function IsGates(): Action -> bool { (a: Action) => a.Gates? }
  function IsExecutes(): Action -> bool { (a: Action) => a.Executes? }
  function IsResolves(): Action -> bool { (a: Action) => a.Resolves? }
  function IsAggregates(): Action -> bool { (a: Action) => a.Aggregates? }
  function IsVisit(): Action -> bool { (a: Action) => !a.Environment? }

  function Count(p: Action -> bool, actions: seq<Action>): nat {
    if actions == [] then 0 else Count(p, actions[..|actions| - 1]) + (if p(actions[|actions| - 1]) then 1 else 0)
  }

  lemma VisitIsLogged(s: State, a: Action)
    requires Enabled(s, a)
    ensures var t := Next(s, a);
            && |t.log.plannerInputs| == |s.log.plannerInputs| + (if a.Plans? then 1 else 0)
            && |t.log.routes| == |s.log.routes| + (if a.Routes? then 1 else 0)
            && |t.log.gates| == |s.log.gates| + (if a.Gates? then 1 else 0)
            && |t.log.executions| == |s.log.executions| + (if a.Executes? then 1 else 0)
            && t.log.resolverVisits == s.log.resolverVisits + (if a.Resolves? then 1 else 0)
            && t.log.aggregations == s.log.aggregations + (if a.Aggregates? then 1 else 0)
            && t.log.nodeSteps == s.log.nodeSteps + (if a.Environment? then 0 else 1)
  {
    hide Attempts, Gate, FullyDenied, CanExecute, Conflicts, ResolveAll, Summary, FactsOf, AdjudicationCalls;
    hide Router.Route;
    hide Executor.Run, Executor.AllResults;
  }

  /** The log counts exactly the visits that were made. */
  lemma {:induction false} LogCounts(scope: set<Scope>, tools: Tools, mode: Router.RouterMode, policy: ResolvePolicy,
                                     sequential: bool, actions: seq<Action>, s: State)
    requires Run(Initial(scope, tools, mode, policy, sequential), actions) == Some(s)
    ensures |s.log.plannerInputs| == Count(IsPlans(), actions) && |s.log.routes| == Count(IsRoutes(), actions)
    ensures |s.log.gates| == Count(IsGates(), actions) && |s.log.executions| == Count(IsExecutes(), actions)
    ensures s.log.resolverVisits == Count(IsResolves(), actions) && s.log.aggregations == Count(IsAggregates(), actions)
    ensures s.log.nodeSteps == Count(IsVisit(), actions)
  {
    if actions != [] {
      var front := actions[..|actions| - 1];
      var before := Run(Initial(scope, tools, mode, policy, sequential), front).value;
      LogCounts(scope, tools, mode, policy, sequential, front, before);
      VisitIsLogged(before, actions[|actions| - 1]);
      hide Next, Enabled;
    }
  }

  /** One planner visit: the plan is the model's first reply or, if that was
      invalid, its reply to the repair of that very reply; anything else ends the
      run.  The pending denials are what the planner was told, once. */
  lemma PlannerVisit(s: State, model: (nat, Prompt) -> ChatReply<Plan>)
    requires s.node.AtPlanner?
    ensures var t := Next(s, Plans(model));
            var first := model(1, Original);
            var last := if first.Invalid? then model(2, Repair(first.raw)) else first;
            && (if last.Valid? then t.node == AtRouter && t.plan == Some(last.value) && t.pendingDenials == None else t.node == Crashed)
            && t.log.modelCalls == s.log.modelCalls + (if first.Invalid? then 2 else 1)
            && t.log.plannerInputs == s.log.plannerInputs + [s.pendingDenials]
  {
    DefaultExchange(model, None);
    hide Attempts;
  }

  /** One router visit goes by the registry as it is at that moment. */
  lemma RouterVisit(s: State)
    requires Enabled(s, Routes)
    ensures var t := Next(s, Routes);
            && t.node == AtGate && t.candidates.Some? && t.tools == s.tools && t.plan == s.plan
            && t.log.routes == s.log.routes + [RouteVisit(s.plan.value, s.tools)]
            && t.candidates.value.vals.Keys == Router.RoutableIds(s.plan.value.subtasks, s.tools)
            && Elements(t.unroutable) == Router.UnroutableIds(s.plan.value.subtasks, s.tools)
  {
    Router.RouteIds(s.plan.value.subtasks, s.tools, s.mode);
    hide Router.Route, Router.RoutableIds, Router.UnroutableIds;
  }

  /** One executor visit is one run of the allowed calls, in the mode asked for,
      with the replies the tools gave; it leaves behind the registry as the rest
      of the process has left it meanwhile. */
  lemma ExecutorVisit(s: State, replies: (nat, nat) -> Invocation.Reply, clock: real, steps: seq<Executor.Step>)
    requires Enabled(s, Executes(replies, clock, steps))
    ensures var t := Next(s, Executes(replies, clock, steps));
            && t.node == AtConflicts && t.results.Some? && t.log.executions != []
            && var x := t.log.executions[|t.log.executions| - 1];
               && x.cfg.replies == replies && x.cfg.sequential == s.sequential
               && x.cfg.batches == BatchCalls(s.plan.value, s.allowedCalls.value)
               && x.tools == s.tools && x.clock == clock && x.steps == steps
               && x.End().Some? && t.tools == x.End().value.tools
  {
    hide BatchCalls;
    hide Executor.Run, Executor.AllResults, Executor.Complete;
  }

  /** What an adjudication of one conflict comes to. */
  function Ruling(model: (nat, Prompt) -> ChatReply<Adjudication>): Outcome<Adjudication> {
    var first := model(1, Original);
    var last := if first.Invalid? then model(2, Repair(first.raw)) else first;
    if last.Valid? then Answer(last.value) else if last.Transport? then TransportError else Exhausted
  }

  /** One resolver visit: conflict i is resolved under the registry of that moment
      and by the ruling of its own adjudicator. */
  lemma ResolverVisit(s: State, toolsAt: nat -> Tools, models: nat -> ((nat, Prompt) -> ChatReply<Adjudication>), i: nat)
    requires Enabled(s, Resolves(toolsAt, models)) && i < |s.conflicts.value|
    ensures var t := Next(s, Resolves(toolsAt, models));
            && t.node == AtAggregator && |t.resolutions| == |t.log.verdicts| == |s.conflicts.value|
            && t.log.verdicts[i].tools == toolsAt(i)
            && t.log.verdicts[i].reply == Ruling(models(i))
  {
    DefaultExchange(models(i), None);
    hide Attempts, ResolveOne, AdjudicationCalls;
  }

  // ----- Termination and budgets

  /** Every node visit uses up one of at most ten steps. */
  lemma StepLowersRank(s: State, a: Action)
    requires Reachable(s) && Enabled(s, a) && !a.Environment?
    ensures Rank(Next(s, a)) < Rank(s) <= 10
  {
    hide Reachable, Attempts, Summary, Gate, FullyDenied, Conflicts, ResolveAll, AdjudicationCalls, CanExecute, FactsOf;
    hide Router.Route;
    hide Executor.Run, Executor.AllResults;
  }

  lemma KeysArePresent(s: State)
    requires Data(s) && RegistryOk(s.tools)
    ensures s.node.AtRouter? ==> s.plan.Some?
    ensures s.node.AtGate? ==> s.candidates.Some? && s.candidates.value.Valid()
    ensures s.node.AtExecutor? ==> s.plan.Some? && s.allowedCalls.Some?
    ensures s.node.AtConflicts? ==> s.results.Some?
    ensures s.node.AtResolver? ==> s.results.Some? && s.conflicts == Some(Conflicts(s.results.value))
    ensures s.node in {AtAggregator, AtEnd} ==> s.plan.Some? && s.results.Some? && s.conflicts == Some(Conflicts(s.results.value))
  {
    hide Conflicts, Filter, Map, Gate, DecidedBy, Summary;
    hide PlanRuns.AnswerList, PlanRuns.TotalCalls;
  }

  function Always(tools: Tools): nat -> Tools {
    (i: nat) => tools
  }

  lemma ConflictsAreGroups(results: seq<ToolResult>)
    ensures forall c :: c in Conflicts(results) ==> c.results != []
  {
    ConflictTheorem(results);
  }

  lemma PresentKeys(s: State)
    requires Reachable(s)
    ensures RegistryOk(s.tools)
    ensures s.node.AtRouter? ==> s.plan.Some?
    ensures s.node.AtGate? ==> s.candidates.Some? && s.candidates.value.Valid()
    ensures s.node.AtExecutor? ==> s.plan.Some? && s.allowedCalls.Some?
    ensures s.node.AtConflicts? ==> s.results.Some?
    ensures s.node.AtResolver? ==> s.conflicts.Some? && forall c :: c in s.conflicts.value ==> c.results != []
    ensures s.node.AtAggregator? ==> s.plan.Some? && s.results.Some?
  {
    ReachableInv(s);
    assert RegistryOk(s.tools);
    KeysArePresent(s);
    hide Inv, Data, Reachable, Conflicts;
    if s.node.AtResolver? { ConflictsAreGroups(s.results.value); }
  }

  /** No node ever reads an absent key or gets stuck: at every node but the last
      its step is possible, whatever the planner, the model and the tools
      answer. */
  lemma NextNode(s: State, planner: (nat, Prompt) -> ChatReply<Plan>, models: nat -> ((nat, Prompt) -> ChatReply<Adjudication>),
                 replies: (nat, nat) -> Invocation.Reply) returns (a: Action)
    requires Reachable(s) && s.node != AtEnd && s.node != Crashed
    ensures Enabled(s, a) && !a.Environment?
    ensures a.Plans? ==> a.model == planner
    ensures a.Executes? ==> a.replies == replies
    ensures a.Resolves? ==> a.models == models
  {
    PresentKeys(s);
    hide Reachable, CanExecute;
    match s.node {
      case AtPlanner => a := Plans(planner);
      case AtRouter => a := Routes;
      case AtGate => a := Gates;
      case AtExecutor =>
        var steps := FinishExecution(s, replies);
        a := Executes(replies, 0.0, steps);
      case AtConflicts => a := Checks;
      case AtResolver => a := Resolves(Always(s.tools), models);
      case AtAggregator => a := Aggregates;
    }
  }

  lemma FinishExecution(s: State, replies: (nat, nat) -> Invocation.Reply) returns (steps: seq<Executor.Step>)
    requires s.plan.Some? && s.allowedCalls.Some? && RegistryOk(s.tools)
    ensures CanExecute(s, replies, 0.0, steps)
  {
    steps := Executor.CanComplete(ExecConfig(s, replies), s.tools, 0.0, []);
    hide Executor.Run, Executor.Complete;
  }

  lemma AggregatorAnswers(s: State)
    requires Reachable(s) && Enabled(s, Aggregates)
    ensures AggregatorNode(s).node == AtEnd
  {
    ReachableInv(s);
    assert Decided(s);
    hide Inv, Settled, Summary, Decided, Reachable;
    DecidedIsSettled(s);
    DigestIsTotal(FactsOf(s));
  }

  /** A planner that answers keeps the run from crashing. */
  lemma AnsweringPlanner(s: State, a: Action)
    requires Reachable(s) && Enabled(s, a) && s.node != Crashed
    requires a.Plans? ==> Attempts(a.model, Budget(None), 1, Original).outcome.Answer?
    ensures Next(s, a).node != Crashed
  {
    if a.Aggregates? { AggregatorAnswers(s); }
    hide Attempts, Summary, Gate, FullyDenied, Conflicts, ResolveAll, AdjudicationCalls, CanExecute, Reachable;
    hide Router.Route;
    hide Executor.Run, Executor.AllResults, FactsOf;
  }

  /** Every run whose planner answers can reach the end, with any tool and model
      behaviour on the way. */
  lemma {:induction false} ReachesEnd(s: State, planner: (nat, Prompt) -> ChatReply<Plan>,
                                      models: nat -> ((nat, Prompt) -> ChatReply<Adjudication>),
                                      replies: (nat, nat) -> Invocation.Reply) returns (end: State)
    requires Reachable(s) && s.node != Crashed
    requires Attempts(planner, Budget(None), 1, Original).outcome.Answer?
    ensures Reachable(end) && end.node == AtEnd
    decreases Rank(s)
  {
    if s.node == AtEnd {
      end := s;
    } else {
      hide Attempts, Reachable;
      var a := NextNode(s, planner, models, replies);
      AnsweringPlanner(s, a);
      StepLowersRank(s, a);
      ReachableNext(s, a);
      hide Next, Enabled, Rank;
      end := ReachesEnd(Next(s, a), planner, models, replies);
    }
  }

  lemma {:induction false} SetNoLargerThanSeq(ids: set<string>, subtasks: seq<Subtask>)
    requires ids <= Ids(subtasks)
    ensures |ids| <= |subtasks|
  {
    if subtasks == [] {
      assert ids == {};
    } else {
      var front, last := subtasks[..|subtasks| - 1], subtasks[|subtasks| - 1];
      assert subtasks == front + [last];
      SetNoLargerThanSeq(ids - {last.id}, front);
      assert last.id in ids ==> |ids| == |ids - {last.id}| + 1;
      assert last.id !in ids ==> ids - {last.id} == ids;
    }
  }

  /** Results only ever concern subtasks of the plan. */
  lemma ResultsBelongToPlan(s: State)
    requires Executed(s)
    ensures forall r :: r in s.results.value ==> r.subtaskId in Ids(s.plan.value.subtasks)
  {
    var v := s.log.routes[|s.log.routes| - 1];
    AllowedBelongToPlan(v.plan, v.tools, s.mode, s.scope);
    hide Router.Route;
    hide Gate;
    forall r | r in s.results.value ensures r.subtaskId in Ids(s.plan.value.subtasks) {
      var sid := r.subtaskId;
      assert PlanRuns.AnswerList(CallsFor(s.allowedCalls.value, sid), Filter(PlanRuns.Of(sid), s.results.value));
      FilterMembers(PlanRuns.Of(sid), s.results.value);
      FilterMembers(OfSubtask(sid), s.allowedCalls.value);
      hide Filter;
      assert r in Filter(PlanRuns.Of(sid), s.results.value);
      assert CallsFor(s.allowedCalls.value, sid)[0] in CallsFor(s.allowedCalls.value, sid);
    }
  }

  lemma ConflictsFitPlan(s: State)
    requires Checked(s)
    ensures |s.conflicts.value| <= |s.plan.value.subtasks|
  {
    ResultsBelongToPlan(s);
    assert s.conflicts.value == Conflicts(s.results.value) && s.plan.Some?;
    hide Executed, Conflicts;
    var results := s.results.value;
    ConflictTheorem(results);
    OkIdsMeaning(results);
    var ids := OkIds(results);
    var all := Ids(s.plan.value.subtasks);
    forall i | 0 <= i < |ids| ensures ids[i] in all {
      assert ids[i] in ids;
      FilterMembers(OkFor(ids[i]), results);
      assert Successes(results, ids[i])[0] in Successes(results, ids[i]);
    }
    hide OkIds, Successes;
    DistinctFits(ids, all);
    SetNoLargerThanSeq(all, s.plan.value.subtasks);
  }

  /** The budget of every completed run: at most two planner visits and one
      replan, exactly one executor and one aggregator visit, at most ten node
      visits, and at most 2*2 + 2*|conflicts| + 1 model calls -- none for
      conflicts unless the model decides them -- with no more conflicts than
      subtasks. */
  lemma BudgetTheorem(s: State)
    requires Reachable(s) && s.node == AtEnd
    ensures 1 <= |s.log.plannerInputs| <= 2 && s.replans == |s.log.plannerInputs| - 1
    ensures |s.log.executions| == 1 && s.log.aggregations == 1 && s.log.nodeSteps <= 10
    ensures s.conflicts.Some? && s.log.resolverVisits == if s.conflicts.value == [] then 0 else 1
    ensures s.plan.Some? && |s.conflicts.value| <= |s.plan.value.subtasks|
    ensures var c := if s.policy.ByModel? then |s.conflicts.value| else 0;
            |s.log.plannerInputs| + c + 1 <= s.log.modelCalls <= 2 * |s.log.plannerInputs| + 2 * c + 1 <= 2 * 2 + 2 * |s.conflicts.value| + 1
  {
    ReachableInv(s);
    assert Checked(s);
    hide Data, Histories, Reachable, Executed, Conflicts;
    ConflictsFitPlan(s);
  }

  // ----- State hygiene

  lemma AtExecutorFacts(s: State)
    requires Reachable(s) && s.node == AtExecutor
    ensures Gated(s) && s.pendingDenials == None
    ensures s.allDenials == DenialsOf(s.log.gates) && |s.log.gates| == s.replans + 1
  {
    ReachableInv(s);
    assert Data(s);
    hide Reachable, Gated, FromPlan, DenialsOf, FullyDenied, CallsBounded;
  }

  /** On entry to the executor nothing is stale: the allowed calls are the gate's
      output for the routing of the current plan; every one of them carries the
      capability and arguments of its subtask in that plan, and names a tool that
      at routing offered the capability within the session scope; no denials are
      pending, and the denials on record are those of every gate visit, in
      order. */
  lemma ExecutorSeesCurrentPlan(s: State)
    requires Reachable(s) && s.node == AtExecutor
    ensures s.pendingDenials == None
    ensures s.log.routes != [] && s.plan == Some(s.log.routes[|s.log.routes| - 1].plan)
    ensures var v := s.log.routes[|s.log.routes| - 1];
            && RegistryOk(v.tools)
            && s.allowedCalls == Some(Gate(Router.Route(v.plan.subtasks, v.tools, s.mode).candidates, s.scope).allowed)
            && (forall call :: call in s.allowedCalls.value ==>
                  exists k: nat :: AllowedFrom(v.plan.subtasks, v.tools, s.scope, k, call))
    ensures s.allDenials == DenialsOf(s.log.gates) && |s.log.gates| == s.replans + 1
  {
    AtExecutorFacts(s);
    var v := s.log.routes[|s.log.routes| - 1];
    hide Router.Route;
    hide Gate, Reachable, DenialsOf;
    hide AllowedFrom, RegistryOk;
    forall call | call in s.allowedCalls.value
      ensures exists k: nat :: AllowedFrom(v.plan.subtasks, v.tools, s.scope, k, call)
    {
      var k := AllowedInScope(v.plan.subtasks, v.tools, s.mode, s.scope, call);
    }
  }

  /** The plan had a routable subtask all of whose candidates were out of
      scope. */
  predicate HasFullyDenied(plan: Plan, tools: Tools, mode: Router.RouterMode, scope: set<Scope>)
    requires tools.Valid()
  {
    var c := Router.Route(plan.subtasks, tools, mode).candidates;
    exists sid :: sid in c.vals && forall x :: x in c.vals[sid] ==> x.tool.manifest.scope !in scope
  }

  /** What the planner is or was told when it is asked a second time. */
  function Told(s: State): Option<seq<Denial>> {
    if s.node.AtPlanner? then s.pendingDenials else if |s.log.plannerInputs| > 1 then s.log.plannerInputs[1] else None
  }

  lemma FirstGateLogged(s: State)
    requires Positions(s) && Histories(s) && s.log.gates != []
    ensures s.log.routes != [] && FromPlan(s, s.log.gates[0], s.log.routes[0])
    ensures s.replans == 1 <==> FullyDenied(s.log.gates[0].candidates, s.log.gates[0].gate) != {}
    ensures if s.replans == 1 then Told(s) == Some(s.log.gates[0].gate.denials) else Told(s) == None
    ensures s.log.plannerInputs != [] && s.log.plannerInputs[0] == None
  {
    hide FromPlan, FullyDenied, DenialsOf;
  }

  /** The first gate visit was over the first plan. */
  lemma FirstGate(s: State)
    requires Reachable(s) && s.log.gates != []
    ensures s.log.routes != [] && RegistryOk(s.log.routes[0].tools)
    ensures var v := s.log.routes[0];
            var c := Router.Route(v.plan.subtasks, v.tools, s.mode).candidates;
            && s.log.gates[0] == GateVisit(c, Gate(c, s.scope))
            && (s.replans == 1 <==> FullyDenied(c, Gate(c, s.scope)) != {})
            && Told(s) == (if s.replans == 1 then Some(Gate(c, s.scope).denials) else None)
    ensures s.log.plannerInputs != [] && s.log.plannerInputs[0] == None
  {
    ReachableInv(s);
    hide Positions, Histories, Data, Reachable, CallsBounded, Told, FullyDenied;
    hide Router.Route;
    hide Gate;
    FirstGateLogged(s);
  }

  /** Every run past its first gate visit, completed or crashed or still under
      way, replans exactly when the first plan had a fully denied subtask; the
      planner is then told the first gate's denials, among them at least one for
      each such subtask, and otherwise it is never told any. */
  lemma ReplanTheorem(s: State)
    requires Reachable(s) && s.log.gates != []
    ensures s.log.routes != [] && s.log.routes[0].tools.Valid()
    ensures var v := s.log.routes[0];
            s.replans == 1 <==> HasFullyDenied(v.plan, v.tools, s.mode, s.scope)
    ensures s.log.plannerInputs != [] && s.log.plannerInputs[0] == None
    ensures s.replans != 1 ==> Told(s) == None
    ensures s.replans == 1 ==>
              var v := s.log.routes[0];
              var c := Router.Route(v.plan.subtasks, v.tools, s.mode).candidates;
              && Told(s) == Some(Gate(c, s.scope).denials) && Told(s).value != []
              && forall sid :: sid in FullyDenied(c, Gate(c, s.scope)) ==>
                   exists d :: d in Told(s).value && d.subtaskId == sid
  {
    FirstGate(s);
    var v := s.log.routes[0];
    var c := Router.Route(v.plan.subtasks, v.tools, s.mode).candidates;
    var gate := Gate(c, s.scope);
    RoutedByRoute(v.plan.subtasks, v.tools, s.mode);
    hide Router.Route;
    hide Gate, Reachable, Routed, FullyDenied, Told;
    forall sid ensures (sid in FullyDenied(c, gate) <==> sid in c.vals && forall x :: x in c.vals[sid] ==> x.tool.manifest.scope !in s.scope)
                       && (sid in FullyDenied(c, gate) ==> exists d :: d in gate.denials && d.subtaskId == sid) {
      FullyDeniedMeaning(c, s.scope, sid);
    }
  }

  /** The denials a completed run reports are those of every gate visit, in
      order, each visit having gated the routing of the plan of that round. */
  lemma FinalDenials(s: State)
    requires Reachable(s) && s.node == AtEnd
    ensures s.allDenials == DenialsOf(s.log.gates)
    ensures |s.log.gates| == |s.log.routes| == s.replans + 1
    ensures forall i :: 0 <= i < |s.log.gates| ==> FromPlan(s, s.log.gates[i], s.log.routes[i])
  {
    ReachableInv(s);
    assert Positions(s) && Histories(s);
    hide Inv, Data, Reachable, CallsBounded, DenialsOf, FullyDenied, FromPlan;
  }

  // ----- Conservation

  function GrantedPair(k: Keyed): PlanRuns.Pair {
    PlanRuns.Pair(k.candidate.call.subtaskId, k.candidate.call.tool)
  }

  lemma CompletedExecution(s: State)
    requires Reachable(s) && s.node == AtEnd
    ensures Executed(s)
  {
    ReachableInv(s);
    assert Data(s);
    hide Reachable, Executed, Positions, Histories, CallsBounded, Summary;
  }

  lemma GrantedPairs(granted: seq<Keyed>)
    ensures Map(PlanRuns.CallPair, Map(KeyedCall, granted)) == Map(GrantedPair, granted)
  {
  }

  lemma AllowedPairs(candidates: Router.Candidates, scope: set<Scope>)
    requires candidates.Valid()
    ensures Map(PlanRuns.CallPair, Gate(candidates, scope).allowed) == Map(GrantedPair, Filter(Granted(scope), Visited(candidates)))
  {
    GrantedPairs(Filter(Granted(scope), Visited(candidates)));
    hide Filter, Visited, Map;
  }

  /** Conservation over the whole pipeline, cyclic plans and duplicate ids
      included: the (subtask, tool) pairs of the final results are, with
      multiplicity, the candidates of the last routing whose scope the session
      grants, and the batch reports account for every result. */
  lemma PipelineConserves(s: State)
    requires Reachable(s) && s.node == AtEnd
    ensures s.results.Some? && s.log.routes != [] && s.log.routes[|s.log.routes| - 1].tools.Valid()
    ensures var v := s.log.routes[|s.log.routes| - 1];
            var c := Router.Route(v.plan.subtasks, v.tools, s.mode).candidates;
            multiset(Map(PlanRuns.ResultPair, s.results.value)) == multiset(Map(GrantedPair, Filter(Granted(s.scope), Visited(c))))
    ensures PlanRuns.TotalCalls(s.batches) == |s.results.value|
  {
    CompletedExecution(s);
    var v := s.log.routes[|s.log.routes| - 1];
    hide Router.Route;
    hide Reachable, Ran, Gate, Map, Filter, Visited, PlanRuns.AnswerList, PlanRuns.TotalCalls;
    AllowedPairs(Router.Route(v.plan.subtasks, v.tools, s.mode).candidates, s.scope);
  }
}
