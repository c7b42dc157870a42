/** Where the reported answers come from: every payload in the digest is what
    some tool replied to one of the allowed calls of this run. */
module Provenance {
  import opened Seqs
  import opened OrderedDict
  import opened Manifests
  import opened ToolIndex
  import opened Schedule
  import opened Router
  import opened Permissions
  import opened Invocation
  import opened PlanRuns
  import opened Resolver
  import opened Digest
  import Executor
  import Orchestration
  import Guarantees
  import opened Answers

  function TheExecution(s: State): Orchestration.Execution
    requires |s.log.executions| == 1
  {
    s.log.executions[0]
  }

  /** The call asks for what a subtask of the current plan asks for. */
  ghost predicate AsPlanned(s: State, call: ToolCall) {
    s.log.routes != [] && LastRoute(s).tools.Valid() && s.plan == Some(LastRoute(s).plan)
    && exists m: nat :: AllowedFrom(LastRoute(s).plan.subtasks, LastRoute(s).tools, s.scope, m, call)
  }

  /** r records call (k, j) of the execution, one of the allowed calls, carrying
      the arguments of its subtask: step n started that call, `tool` was bound to
      its name then, and r is what its reply makes of it. */
  ghost predicate Recorded(s: State, r: ToolResult, n: nat, k: nat, j: nat, tool: Option<RegisteredTool>)
    requires |s.log.executions| == 1 && s.allowedCalls.Some?
  {
    var x := TheExecution(s);
    && k < |x.cfg.batches| && j < |x.cfg.batches[k]| && x.cfg.batches[k][j] in s.allowedCalls.value
    && AsPlanned(s, x.cfg.batches[k][j])
    && Executor.StartedAt(x.cfg, Executor.Initial(x.tools, x.clock), x.steps, n, k, j, tool)
    && Fills(x.cfg.batches[k][j], tool, x.cfg.replies(k, j), r)
  }

  lemma RanFacts(s: State)
    requires Completed(s)
    ensures s.results.Some? && s.allowedCalls.Some? && |s.log.executions| == 1
    ensures Orchestration.Ran(s)
  {
    Guarantees.CompletedExecution(s);
    hide Guarantees.Reachable;
    hide Orchestration.Ran;
    hide Orchestration.Gated;
  }

  lemma InSomeBatch(rss: seq<seq<ToolResult>>, r: ToolResult) returns (k: nat, j: nat)
    requires r in Flatten(rss)
    ensures k < |rss| && j < |rss[k]| && rss[k][j] == r
  {
    FlattenMember(rss, r);
    k :| 0 <= k < |rss| && r in rss[k];
    j :| 0 <= j < |rss[k]| && rss[k][j] == r;
  }

  /** Every result of a completed run records one of its allowed calls. */
  lemma ResultIsRecorded(s: State, r: ToolResult) returns (n: nat, k: nat, j: nat, tool: Option<RegisteredTool>)
    requires Completed(s) && s.results.Some? && r in s.results.value
    ensures s.allowedCalls.Some? && |s.log.executions| == 1 && Recorded(s, r, n, k, j, tool)
  {
    RanFacts(s);
    var x := TheExecution(s);
    var start := Executor.Initial(x.tools, x.clock);
    hide Completed, BatchCalls, Fills, RegistryOk, AsPlanned;
    hide Executor.Run, Executor.Complete, Executor.StartedAt;
    k, j := InSomeBatch(x.End().value.done, r);
    Executor.ResultsMeaning(x.cfg, x.tools, x.clock, x.steps);
    assert Executor.Answers(x.cfg, start, x.steps, k, j, r);
    tool :| Executor.LookedUp(x.cfg, start, x.steps, k, j, tool) && Fills(x.cfg.batches[k][j], tool, x.cfg.replies(k, j), r);
    n :| Executor.StartedAt(x.cfg, start, x.steps, n, k, j, tool);
    ScheduledCallIsAllowed(s.plan.value, s.allowedCalls.value, k, x.cfg.batches[k][j]);
    AllowedIsPlanned(s, x.cfg.batches[k][j]);
  }

  lemma AllowedIsPlanned(s: State, call: ToolCall)
    requires Completed(s) && s.allowedCalls.Some? && call in s.allowedCalls.value
    ensures AsPlanned(s, call)
  {
    Guarantees.CompletedExecution(s);
    assert Orchestration.Gated(s);
    var v := LastRoute(s);
    hide Guarantees.Reachable;
    hide Gate, Route, AllowedFrom;
    var m := AllowedInScope(v.plan.subtasks, v.tools, s.mode, s.scope, call);
  }

  /** The payload is what the tool of call (k, j) delivered. */
  ghost predicate DeliveredBy(s: State, r: ToolResult, n: nat, k: nat, j: nat, tool: Option<RegisteredTool>, data: Payload)
    requires |s.log.executions| == 1 && s.allowedCalls.Some?
  {
    Recorded(s, r, n, k, j, tool) && tool.Some?
    && var reply := TheExecution(s).cfg.replies(k, j);
       GoodReply(reply) && data == Delivered(reply)
  }

  lemma RecordDelivers(s: State, r: ToolResult, n: nat, k: nat, j: nat, tool: Option<RegisteredTool>)
    requires |s.log.executions| == 1 && s.allowedCalls.Some? && Recorded(s, r, n, k, j, tool)
    ensures r.ok ==> DeliveredBy(s, r, n, k, j, tool, r.data)
    ensures r.ok ==> forall data :: DeliveredBy(s, r, n, k, j, tool, data) ==> data == r.data
  {
    var x := TheExecution(s);
    FillsMeaning(x.cfg.batches[k][j], tool, x.cfg.replies(k, j), r);
    hide Fills, GoodReply, Delivered, AsPlanned;
    hide Executor.StartedAt;
  }

  /** End to end: the digest reports a payload for a subtask exactly when it is
      what a tool delivered, in this run, to the allowed call that the subtask's
      answer records -- the tool being the one bound to the call's name when the
      call started. */
  lemma ReportedIsDelivered(s: State, sid: string, data: Payload)
    requires Completed(s) && s.plan.Some? && sid in Ids(s.plan.value.subtasks)
    ensures s.results.Some? && s.answer.Some? && s.conflicts.Some? && |s.conflicts.value| == |s.log.verdicts|
    ensures s.allowedCalls.Some? && |s.log.executions| == 1
    ensures Reported(s.answer.value, sid, data) <==>
            exists w, n: nat, k: nat, j: nat, tool :: IsAnswer(s, sid, w) && DeliveredBy(s, w, n, k, j, tool, data)
  {
    AnswerTheorem(s, sid, data);
    RanFacts(s);
    hide Completed, Reported, DeliveredBy, Recorded;
    hide Orchestration.Ran;
    if w :| IsAnswer(s, sid, w) && w.data == data {
      var n, k, j, tool := ResultIsRecorded(s, w);
      RecordDelivers(s, w, n, k, j, tool);
    }
    forall w, n: nat, k: nat, j: nat, tool | IsAnswer(s, sid, w) && DeliveredBy(s, w, n, k, j, tool, data) ensures w.data == data {
      DeliveredIsRecorded(s, w, n, k, j, tool, data);
      RecordDelivers(s, w, n, k, j, tool);
    }
  }

  lemma DeliveredIsRecorded(s: State, r: ToolResult, n: nat, k: nat, j: nat, tool: Option<RegisteredTool>, data: Payload)
    requires |s.log.executions| == 1 && s.allowedCalls.Some? && DeliveredBy(s, r, n, k, j, tool, data)
    ensures Recorded(s, r, n, k, j, tool)
  {
  }

  /** FRESHEST goes by the tools' own timestamps: of two results of a conflict
      whose tools both supplied one, the winner's is not the older. */
  lemma FreshestByOwnTime(s: State, i: nat, w: ToolResult, r: ToolResult,
                          nw: nat, kw: nat, jw: nat, toolw: Option<RegisteredTool>, nr: nat, kr: nat, jr: nat, toolr: Option<RegisteredTool>)
    requires Completed(s) && s.policy.ByFreshness? && i < |s.resolutions|
    requires s.results.Some? && s.conflicts.Some? && i < |s.conflicts.value| && i < |s.log.verdicts| && Decides(s, i, w)
    requires r in s.conflicts.value[i].results
    requires s.allowedCalls.Some? && |s.log.executions| == 1
    requires Recorded(s, w, nw, kw, jw, toolw) && Recorded(s, r, nr, kr, jr, toolr)
    ensures var cfg := TheExecution(s).cfg;
            var own, other := OwnTime(toolw, cfg.replies(kw, jw)), OwnTime(toolr, cfg.replies(kr, jr));
            own.Some? && other.Some? ==> own.value >= other.value
  {
    var x := TheExecution(s);
    FillsMeaning(x.cfg.batches[kw][jw], toolw, x.cfg.replies(kw, jw), w);
    FillsMeaning(x.cfg.batches[kr][jr], toolr, x.cfg.replies(kr, jr), r);
    hide Completed, Fills, OwnTime, Winner, AsPlanned;
    hide Executor.StartedAt;
    var c := s.conflicts.value[i];
    assert TopByFreshness(c, w);
    var m :| 0 <= m < |c.results| && c.results[m] == r;
    assert c.results[m].observedAt <= w.observedAt;
  }

  // ----- What the lines cite

  lemma ResolvedLine(f: Facts, l: Line)
    requires Summary(f).Some? && l in Summary(f).value && l.Resolved? && Settled(f)
    ensures ResolutionFor(f.resolutions, l.sid).Some?
    ensures var res := ResolutionFor(f.resolutions, l.sid).value;
            && l.tool == res.chosenTool && l.policy == res.policy
            && Winner(f.results, l.sid, res.chosenTool).Some? && l.data == Winner(f.results, l.sid, res.chosenTool).value.data
    ensures exists st :: st in f.plan.subtasks && st.id == l.sid && st.capability == l.capability
  {
    forall st | st in f.plan.subtasks ensures SubtaskLines(f, st).Some? { SettledLines(f, st); }
    PlanLinesMembers(f, f.plan.subtasks);
    InHead(f, l);
    hide Summary, PlanLines, SubtaskLines, Settled;
    var st :| st in f.plan.subtasks && l in SubtaskLines(f, st).value;
    OwnResolution(f, st, l);
  }

  lemma InHead(f: Facts, l: Line)
    requires Summary(f).Some? && l in Summary(f).value && l.Resolved?
    ensures PlanLines(f, f.plan.subtasks).Some? && l in PlanLines(f, f.plan.subtasks).value
  {
    hide PlanLines, CapabilityOf;
  }

  lemma OwnResolution(f: Facts, st: Subtask, l: Line)
    requires SubtaskLines(f, st).Some? && l in SubtaskLines(f, st).value && l.Resolved?
    ensures l.sid == st.id && l.capability == st.capability && ResolutionFor(f.resolutions, l.sid).Some?
    ensures var res := ResolutionFor(f.resolutions, l.sid).value;
            && l.tool == res.chosenTool && l.policy == res.policy
            && Winner(f.results, l.sid, res.chosenTool).Some? && l.data == Winner(f.results, l.sid, res.chosenTool).value.data
  {
    hide ResolutionFor, Winner, Filter;
  }

  /** A CONFLICT line of the digest cites the tool and the payload of the result
      that decided the conflict, the policy that was asked for, and the
      capability of a subtask with that id. */
  lemma ResolvedLineCites(s: State, l: Line) returns (i: nat, w: ToolResult)
    requires Completed(s) && s.answer.Some? && l in s.answer.value && l.Resolved?
    ensures s.results.Some? && s.conflicts.Some? && i < |s.conflicts.value| == |s.log.verdicts| == |s.resolutions|
    ensures Decides(s, i, w) && l.sid == w.subtaskId && l.tool == w.tool && l.data == w.data && l.policy == s.policy
    ensures s.plan.Some? && exists st :: st in s.plan.value.subtasks && st.id == l.sid && st.capability == l.capability
  {
    CompletedFacts(s);
    var f := Orchestration.FactsOf(s);
    ResolvedLine(f, l);
    ResolutionForMeaning(s.resolutions, l.sid);
    var res := ResolutionFor(s.resolutions, l.sid).value;
    hide Completed, Settled, Summary, Conflicts, ResolutionFor;
    hide Orchestration.Decided;
    i :| 0 <= i < |s.resolutions| && s.resolutions[i] == res;
    w := PickedWinner(s, i);
    PolicyKept(s, i);
    WinnersTool(s.results.value, l.sid, res.chosenTool);
  }

  lemma PolicyKept(s: State, i: nat)
    requires Completed(s) && i < |s.resolutions|
    ensures s.resolutions[i].policy == s.policy
  {
    ConflictFacts(s, i);
    ResolutionMeaning(s.conflicts.value[i], s.policy, s.log.verdicts[i].tools, s.log.verdicts[i].reply);
    hide Completed, ResolveOne, Picked, Successes;
  }

  lemma WinnersTool(results: seq<ToolResult>, sid: string, tool: string)
    ensures Winner(results, sid, tool).Some? ==> OfTool(sid, tool)(Winner(results, sid, tool).value)
  {
    FilterMembers(OfTool(sid, tool), results);
    var found := Filter(OfTool(sid, tool), results);
    if found != [] { assert found[0] in found; }
  }

  /** The capability a result line names is that of the call exactly when the
      line's subtask has the capability of the id's last routable bearer -- as
      it always has when ids are unique. */
  lemma LineCapability(s: State, st: Subtask, r: ToolResult) returns (k: nat)
    requires Completed(s) && s.plan.Some? && st in s.plan.value.subtasks
    requires s.results.Some? && r in s.results.value && r.subtaskId == st.id
    ensures s.log.routes != [] && RegistryOk(LastRoute(s).tools) && s.plan.value == LastRoute(s).plan
    ensures LastRoutable(s.plan.value.subtasks, LastRoute(s).tools, k) && s.plan.value.subtasks[k].id == st.id
    ensures ResultLine(st)(r).capability == r.capability <==> st.capability == s.plan.value.subtasks[k].capability
    ensures UniqueIds(s.plan.value) ==> ResultLine(st)(r).capability == r.capability
  {
    CompletedFacts(s);
    assert Orchestration.Executed(s);
    hide Completed, Settled, Summary, Conflicts;
    hide Orchestration.Decided, Orchestration.Executed;
    k := ServedBy(s, r);
    ServedCapability(s, k, r);
    hide Routable;
    var subtasks := s.plan.value.subtasks;
    var i :| 0 <= i < |subtasks| && subtasks[i] == st;
    if UniqueIds(s.plan.value) { assert i == k; }
  }

  lemma ServedCapability(s: State, k: nat, r: ToolResult)
    requires Orchestration.Executed(s) && LastRoutable(LastRoute(s).plan.subtasks, LastRoute(s).tools, k)
    requires r in s.results.value && r.subtaskId == LastRoute(s).plan.subtasks[k].id
    ensures r.capability == LastRoute(s).plan.subtasks[k].capability
  {
    var st, rs := LastRoute(s).plan.subtasks[k], ResultsFor(s, r.subtaskId);
    var calls := CallsFor(s.allowedCalls.value, st.id);
    assert AnswerList(calls, rs);
    CallsOfServed(s, k);
    PermittedCapability(LastRoute(s).tools, st, s.mode, s.scope);
    FilterMembers(Of(st.id), s.results.value);
    hide Filter, Permitted, CandidatesFor, Routable;
    hide Orchestration.Executed;
    assert r in rs;
    var i :| 0 <= i < |rs| && rs[i] == r;
    assert AnswersCall(calls[i], r) && calls[i] in calls;
  }

  lemma PermittedCapability(tools: Tools, st: Subtask, mode: RouterMode, scope: set<Scope>)
    requires tools.Valid()
    ensures forall c :: c in Permitted(CandidatesFor(tools, st, mode), scope) ==> c.capability == st.capability
  {
    var cs := CandidatesFor(tools, st, mode);
    FilterMembers(InScope(scope), cs);
    MapMembers(CandidateCall, Filter(InScope(scope), cs));
    hide Filter, Chosen;
  }

  /** With a repeated id a line can name a capability nobody was asked for: here
      tool "t", which offers "c", is reported under "x". */
  lemma LineUnderWrongCapability(r: ToolResult)
    requires r.subtaskId == "s" && r.capability == "c" && r.tool == "t" && r.ok
    ensures var f := Facts(Plan(OneIdTwice(), ""), [r], [], [], [], ["s"]);
            && Settled(f) && Summary(f).Some? && Success("s", "x", "t", r.data) in Summary(f).value
  {
    var f := Facts(Plan(OneIdTwice(), ""), [r], [], [], [], ["s"]);
    LoneResult(r);
    var st := OneIdTwice()[0];
    assert Success("s", "x", "t", r.data) in SubtaskLines(f, st).value by { LoneLine(f, st, r); }
    hide Settled, Summary, PlanLines, SubtaskLines;
    forall x | x in f.plan.subtasks ensures SubtaskLines(f, x).Some? { SettledLines(f, x); }
    PlanLinesMembers(f, f.plan.subtasks);
    assert st in f.plan.subtasks;
    DigestIsTotal(f);
    HeadIsThere(f, Success("s", "x", "t", r.data));
  }

  lemma LoneLine(f: Facts, st: Subtask, r: ToolResult)
    requires f.resolutions == [] && f.conflicts == [] && Filter(Of(st.id), f.results) == [r] && r.ok
    ensures SubtaskLines(f, st).Some? && Success(st.id, st.capability, r.tool, r.data) in SubtaskLines(f, st).value
  {
    assert Map(ResultLine(st), [r])[0] == Success(st.id, st.capability, r.tool, r.data);
    hide Filter, Winner;
  }

  lemma LoneResult(r: ToolResult)
    requires r.subtaskId == "s" && r.ok
    ensures Conflicts([r]) == [] && Filter(Of("s"), [r]) == [r]
  {
    OneSubtask([r], "s");
    assert ConflictsAmong([r], ["s"][..0]) == [];
    FilterAll(Of("s"), [r]);
    hide OkIds, Successes, Filter;
  }

  // ----- The rest of a completed run's digest

  lemma {:induction false} DenialsOfMembers(gates: seq<Orchestration.GateVisit>, d: Denial)
    ensures d in Orchestration.DenialsOf(gates) <==> exists i :: 0 <= i < |gates| && d in gates[i].gate.denials
  {
    if gates != [] {
      var k := |gates| - 1;
      DenialsOfMembers(gates[..k], d);
      if i :| 0 <= i < |gates| && d in gates[i].gate.denials {
        if i < k { assert gates[..k][i] == gates[i]; }
      }
      if i :| 0 <= i < k && d in gates[..k][i].gate.denials { assert gates[..k][i] == gates[i]; }
    }
  }

  /** A candidate the gate refused in round i. */
  ghost predicate RefusedIn(s: State, i: nat, sid: string, c: Candidate) {
    i < |s.log.routes| && s.log.routes[i].tools.Valid()
    && var cs := Route(s.log.routes[i].plan.subtasks, s.log.routes[i].tools, s.mode).candidates;
       sid in cs.vals && c in cs.vals[sid] && c.tool.manifest.scope !in s.scope
  }

  lemma RoundDenials(s: State, i: nat, d: Denial)
    requires Completed(s) && i < |s.log.gates|
    ensures d in s.log.gates[i].gate.denials <==>
            exists sid, c :: RefusedIn(s, i, sid, c) && d == Denial(sid, c.call.capability, c.tool.manifest.name, c.tool.manifest.scope)
  {
    Guarantees.FinalDenials(s);
    assert Orchestration.FromPlan(s, s.log.gates[i], s.log.routes[i]);
    var v := s.log.routes[i];
    RoutedByRoute(v.plan.subtasks, v.tools, s.mode);
    hide Completed, Route, Gate, Routed;
    GateMeaning(s.log.gates[i].candidates, s.scope);
  }

  /** The digest of a completed run has a DENIED line for exactly the candidates
      refused in some round, the replanned one included; an UNROUTABLE line for
      exactly the ids of subtasks of the final plan that no tool could serve; a
      FAILED line for exactly the failed results of subtasks without a conflict;
      and the final plan's notes. */
  lemma DigestOfRun(s: State, l: Line)
    requires Completed(s)
    ensures s.plan.Some? && s.results.Some? && s.conflicts.Some? && s.answer.Some? && s.log.routes != [] && RegistryOk(LastRoute(s).tools)
    ensures l.Denied? ==>
              (l in s.answer.value <==>
                 exists i: nat, sid, c :: RefusedIn(s, i, sid, c) && l == Denied(c.tool.manifest.name, c.call.capability, c.tool.manifest.scope))
    ensures l.Unroutable? ==>
              (l in s.answer.value <==>
                 exists st :: st in s.plan.value.subtasks && !Routable(LastRoute(s).tools, st) && l == UnroutableLine(s.plan.value.subtasks)(st.id))
    ensures l.Failure? ==>
              (l in s.answer.value <==>
                 exists st, r :: st in s.plan.value.subtasks && r in s.results.value && r.subtaskId == st.id && !r.ok
                   && st.id !in Conflicted(s.conflicts.value) && l == Failure(st.id, st.capability, r.tool, r.error))
    ensures l.Notes? ==> (l in s.answer.value <==> s.plan.value.notes != "" && l == Notes(s.plan.value.notes))
  {
    CompletedFacts(s);
    DigestAccounts(Orchestration.FactsOf(s), l);
    FinalFacts(s);
    hide Completed, Settled, Summary, Conflicts, Routable, UnroutableLine;
    hide Orchestration.Decided;
    if l.Denied? { DeniedLines(s, l); }
    if l.Unroutable? {
      UnroutableSubtasks(s);
    }
  }

  lemma FinalFacts(s: State)
    requires Completed(s)
    ensures s.plan.Some? && s.results.Some? && s.conflicts.Some? && s.log.routes != [] && RegistryOk(LastRoute(s).tools)
    ensures var f := Orchestration.FactsOf(s);
            && f.plan == s.plan.value && f.results == s.results.value && f.conflicts == s.conflicts.value
            && f.denials == Orchestration.DenialsOf(s.log.gates)
            && f.unroutable == Route(s.plan.value.subtasks, LastRoute(s).tools, s.mode).unroutable
  {
    Guarantees.CompletedExecution(s);
    Guarantees.FinalDenials(s);
    CompletedFacts(s);
    assert Orchestration.Rerouted(s);
    hide Completed, Settled, Summary, Conflicts, Route;
    hide Orchestration.DenialsOf, Orchestration.Executed, Orchestration.Decided, Orchestration.FromPlan;
    hide Guarantees.Reachable;
  }

  lemma DeniedLines(s: State, l: Line)
    requires Completed(s) && l.Denied?
    ensures (exists d :: d in Orchestration.DenialsOf(s.log.gates) && l == Denied(d.tool, d.capability, d.scopeRequired)) <==>
            exists i: nat, sid, c :: RefusedIn(s, i, sid, c) && l == Denied(c.tool.manifest.name, c.call.capability, c.tool.manifest.scope)
  {
    Guarantees.FinalDenials(s);
    hide Completed, RefusedIn;
    hide Orchestration.DenialsOf, Orchestration.FromPlan;
    if d :| d in Orchestration.DenialsOf(s.log.gates) && l == Denied(d.tool, d.capability, d.scopeRequired) {
      DenialsOfMembers(s.log.gates, d);
      var i :| 0 <= i < |s.log.gates| && d in s.log.gates[i].gate.denials;
      RoundDenials(s, i, d);
      var sid, c :| RefusedIn(s, i, sid, c) && d == Denial(sid, c.call.capability, c.tool.manifest.name, c.tool.manifest.scope);
    }
    if i: nat, sid, c :| RefusedIn(s, i, sid, c) && l == Denied(c.tool.manifest.name, c.call.capability, c.tool.manifest.scope) {
      var d := Denial(sid, c.call.capability, c.tool.manifest.name, c.tool.manifest.scope);
      RefusedRound(s, i, sid, c);
      RoundDenials(s, i, d);
      DenialsOfMembers(s.log.gates, d);
    }
  }

  lemma RefusedRound(s: State, i: nat, sid: string, c: Candidate)
    requires RefusedIn(s, i, sid, c)
    ensures i < |s.log.routes|
  {
  }

  lemma UnroutableSubtasks(s: State)
    requires s.plan.Some? && s.log.routes != [] && RegistryOk(LastRoute(s).tools)
    ensures forall sid :: sid in Route(s.plan.value.subtasks, LastRoute(s).tools, s.mode).unroutable <==>
              exists st :: st in s.plan.value.subtasks && !Routable(LastRoute(s).tools, st) && sid == st.id
  {
    RouteIds(s.plan.value.subtasks, LastRoute(s).tools, s.mode);
    hide Routable, Route;
    var u := Route(s.plan.value.subtasks, LastRoute(s).tools, s.mode).unroutable;
    forall sid ensures sid in u <==> sid in Elements(u) {}
  }
}
