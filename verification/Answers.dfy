/** What a completed run reports, traced back through all stages: which result
    the digest's answer comes from under every policy, and when calling every
    provider and resolving by priority amounts to taking the first success in
    priority order. */
module Answers {
  import opened Seqs
  import opened OrderedDict
  import opened Manifests
  import opened ToolIndex
  import opened Schedule
  import opened Router
  import opened Permissions
  import opened PlanRuns
  import opened Llm
  import opened Resolver
  import opened Digest
  import Orchestration
  import Guarantees

  type State = Orchestration.State

  ghost predicate Completed(s: State) {
    Guarantees.Reachable(s) && s.node == Orchestration.AtEnd
  }

  function LastRoute(s: State): Orchestration.RouteVisit
    requires s.log.routes != []
  {
    s.log.routes[|s.log.routes| - 1]
  }

  function ResultsFor(s: State, sid: string): seq<ToolResult>
    requires s.results.Some?
  {
    Filter(Of(sid), s.results.value)
  }

  lemma CompletedFacts(s: State)
    requires Completed(s)
    ensures Orchestration.Decided(s) && s.answer.Some? && s.answer == Summary(Orchestration.FactsOf(s))
    ensures s.plan.Some? && s.results.Some? && s.conflicts == Some(Conflicts(s.results.value))
    ensures s.log.routes != [] && RegistryOk(LastRoute(s).tools) && s.plan == Some(LastRoute(s).plan)
    ensures Settled(Orchestration.FactsOf(s))
  {
    Guarantees.ReachableInv(s);
    assert Orchestration.Data(s);
    hide Summary, Conflicts, Filter, Map, Gate, Settled, AnswerList, TotalCalls, Route;
    hide Guarantees.Reachable;
    hide Orchestration.DecidedBy;
    Orchestration.DecidedIsSettled(s);
  }

  /** In every completed run, whatever the policy and whatever anyone did on the
      way, each conflict has exactly one resolution; the digest exists; and it
      reports a payload as a subtask's answer exactly when the subtask had a
      success, always the same one. */
  lemma DigestTheorem(s: State, sid: string, data: Payload)
    requires Completed(s)
    ensures s.plan.Some? && s.results.Some? && s.answer.Some? && s.conflicts.Some?
    ensures |s.resolutions| == |s.conflicts.value|
    ensures forall i :: 0 <= i < |s.resolutions| ==> s.resolutions[i].subtaskId == s.conflicts.value[i].subtaskId
    ensures sid in Ids(s.plan.value.subtasks) ==>
              (Reported(s.answer.value, sid, data) <==>
                 Successes(s.results.value, sid) != [] && data == AnswerFor(Orchestration.FactsOf(s), sid))
  {
    CompletedFacts(s);
    var f := Orchestration.FactsOf(s);
    assert f.conflicts == s.conflicts.value;
    hide Completed, Summary, Reported, AnswerFor, Successes, Conflicts;
    hide Orchestration.Decided;
    if sid in Ids(s.plan.value.subtasks) { OneAnswer(f, sid, data); }
  }

  // ----- Which tools were asked, and in what order

  function ToolGranted(scope: set<Scope>): RegisteredTool -> bool {
    (t: RegisteredTool) => t.manifest.scope in scope
  }

  function PermittedTools(tools: seq<RegisteredTool>, scope: set<Scope>): seq<RegisteredTool> {
    Filter(ToolGranted(scope), tools)
  }

  /** The calls go to these tools, in this order. */
  predicate AskedInOrder(calls: seq<ToolCall>, tools: seq<RegisteredTool>) {
    |calls| == |tools| && forall i :: 0 <= i < |calls| ==> calls[i].tool == tools[i].manifest.name
  }

  predicate AnsweredInOrder(rs: seq<ToolResult>, tools: seq<RegisteredTool>) {
    |rs| == |tools| && forall i :: 0 <= i < |rs| ==> rs[i].tool == tools[i].manifest.name
  }

  lemma {:induction false} PermittedFollowTools(st: Subtask, chosen: seq<RegisteredTool>, cs: seq<Candidate>, scope: set<Scope>)
    requires |cs| == |chosen| && forall i :: 0 <= i < |cs| ==> cs[i] == Candidate(CallOf(st, chosen[i]), chosen[i])
    ensures AskedInOrder(Permitted(cs, scope), PermittedTools(chosen, scope))
  {
    if cs != [] {
      PermittedFollowTools(st, chosen[..|cs| - 1], cs[..|cs| - 1], scope);
    }
  }

  lemma CallsOfServed(s: State, k: nat)
    requires Orchestration.Gated(s)
    requires LastRoutable(LastRoute(s).plan.subtasks, LastRoute(s).tools, k)
    ensures var st := LastRoute(s).plan.subtasks[k];
            CallsFor(s.allowedCalls.value, st.id) == Permitted(CandidatesFor(LastRoute(s).tools, st, s.mode), s.scope)
  {
    var v := LastRoute(s);
    var st := v.plan.subtasks[k];
    var c := s.candidates.value;
    RouteIds(v.plan.subtasks, v.tools, s.mode);
    assert st in v.plan.subtasks;
    assert st.id in c.vals;
    RoutedByRoute(v.plan.subtasks, v.tools, s.mode);
    AllowedFor(c, s.scope, st.id);
    var m := RouteServes(v.plan.subtasks, v.tools, s.mode, st.id);
    hide Route, Gate, CandidatesFor, Permitted, Routable, CallsFor, Routed;
    SameLastRoutable(v.plan.subtasks, v.tools, k, m);
  }

  /** Every permitted provider of a subtask is asked, once, in
      `find_by_capability` order (in PRIORITY mode only the top one is a
      candidate), and the results come in that order. */
  lemma ProvidersAsked(s: State, k: nat)
    requires Orchestration.Executed(s)
    requires LastRoutable(LastRoute(s).plan.subtasks, LastRoute(s).tools, k)
    ensures var st := LastRoute(s).plan.subtasks[k];
            AnsweredInOrder(ResultsFor(s, st.id), PermittedTools(Chosen(LastRoute(s).tools, st.capability, s.mode), s.scope))
  {
    var v := LastRoute(s);
    var st := v.plan.subtasks[k];
    assert AnswerList(CallsFor(s.allowedCalls.value, st.id), ResultsFor(s, st.id));
    CallsOfServed(s, k);
    PermittedFollowTools(st, Chosen(v.tools, st.capability, s.mode), CandidatesFor(v.tools, st, s.mode), s.scope);
    hide Chosen, CandidatesFor, Permitted, PermittedTools, CallsFor, Filter, ResultsFor, Routable;
    hide Orchestration.Executed;
  }

  lemma {:induction false} FilterDescends(p: RegisteredTool -> bool, s: seq<RegisteredTool>)
    requires Descending(s)
    ensures Descending(Filter(p, s))
  {
    if s != [] {
      var front := s[..|s| - 1];
      FilterDescends(p, front);
      FilterMembers(p, front);
      var r := Filter(p, front);
      forall i | 0 <= i < |r| ensures r[i].manifest.priority >= s[|s| - 1].manifest.priority {
        assert r[i] in front;
      }
    }
  }

  lemma PermittedToolsMeaning(tools: Tools, cap: string, mode: RouterMode, scope: set<Scope>)
    requires RegistryOk(tools)
    ensures var perm := PermittedTools(Chosen(tools, cap, mode), scope);
            && Descending(perm) && DistinctNames(perm)
            && forall t :: t in perm ==> t.manifest.name in tools.vals && tools.vals[t.manifest.name] == t
  {
    FindByCapabilityMeaning(tools, cap);
    var chosen := Chosen(tools, cap, mode);
    assert forall t :: t in chosen ==> t in FindByCapability(tools, cap);
    hide FindByCapability;
    FilterDescends(ToolGranted(scope), chosen);
    FilterKeepsDistinctNames(ToolGranted(scope), chosen);
    FilterMembers(ToolGranted(scope), chosen);
  }

  predicate SortedBy(key: ToolResult -> real, rs: seq<ToolResult>) {
    forall i, j :: 0 <= i < j < |rs| ==> key(rs[i]) >= key(rs[j])
  }

  lemma {:induction false} FilterSorted(p: ToolResult -> bool, key: ToolResult -> real, rs: seq<ToolResult>)
    requires SortedBy(key, rs)
    ensures SortedBy(key, Filter(p, rs))
  {
    if rs != [] {
      var front := rs[..|rs| - 1];
      FilterSorted(p, key, front);
      FilterMembers(p, front);
      var r := Filter(p, front);
      forall i | 0 <= i < |r| ensures key(r[i]) >= key(rs[|rs| - 1]) {
        assert r[i] in front;
      }
    }
  }

  /** The results of one subtask come from distinct tools, by descending
      priority at the time of routing. */
  lemma ServedResults(s: State, k: nat)
    requires Orchestration.Executed(s)
    requires LastRoutable(LastRoute(s).plan.subtasks, LastRoute(s).tools, k)
    ensures var rs := ResultsFor(s, LastRoute(s).plan.subtasks[k].id);
            DistinctTools(rs) && SortedBy(PriorityOf(LastRoute(s).tools), rs)
  {
    var v := LastRoute(s);
    var st := v.plan.subtasks[k];
    assert RegistryOk(v.tools);
    ProvidersAsked(s, k);
    PermittedToolsMeaning(v.tools, st.capability, s.mode, s.scope);
    hide Orchestration.Executed, ResultsFor, PermittedTools, Chosen, Routable;
    var rs, perm := ResultsFor(s, st.id), PermittedTools(Chosen(v.tools, st.capability, s.mode), s.scope);
    forall i | 0 <= i < |rs| ensures PriorityOf(v.tools)(rs[i]) == perm[i].manifest.priority as real {
      assert perm[i] in perm;
    }
  }

  /** Results only exist for routed subtasks. */
  lemma ServedBy(s: State, r: ToolResult) returns (k: nat)
    requires Orchestration.Executed(s) && r in s.results.value
    ensures LastRoutable(LastRoute(s).plan.subtasks, LastRoute(s).tools, k) && LastRoute(s).plan.subtasks[k].id == r.subtaskId
  {
    var v := LastRoute(s);
    var sid := r.subtaskId;
    var c := s.candidates.value;
    assert AnswerList(CallsFor(s.allowedCalls.value, sid), ResultsFor(s, sid));
    FilterMembers(Of(sid), s.results.value);
    assert r in ResultsFor(s, sid);
    RoutedByRoute(v.plan.subtasks, v.tools, s.mode);
    AllowedFor(c, s.scope, sid);
    assert sid in c.vals;
    hide Filter, Gate, CallsFor, Permitted, ResultsFor, Routable, CandidatesFor;
    k := RouteServes(v.plan.subtasks, v.tools, s.mode, sid);
  }

  // ----- (subtask, tool) is a key of the results

  predicate KeyedResults(rs: seq<ToolResult>) {
    forall i, j :: 0 <= i < j < |rs| ==> !(rs[i].subtaskId == rs[j].subtaskId && rs[i].tool == rs[j].tool)
  }

  lemma {:induction false} KeyedBySubtask(rs: seq<ToolResult>)
    requires forall sid :: DistinctTools(Filter(Of(sid), rs))
    ensures KeyedResults(rs)
  {
    if rs != [] {
      var front, last := rs[..|rs| - 1], rs[|rs| - 1];
      forall sid ensures DistinctTools(Filter(Of(sid), front)) {
        FilterDropLast(Of(sid), rs);
        assert DistinctTools(Filter(Of(sid), rs));
      }
      KeyedBySubtask(front);
      var mine := Filter(Of(last.subtaskId), rs);
      FilterDropLast(Of(last.subtaskId), rs);
      FilterMembers(Of(last.subtaskId), front);
      hide Filter;
      forall i | 0 <= i < |front| ensures !(front[i].subtaskId == last.subtaskId && front[i].tool == last.tool) {
        if front[i].subtaskId == last.subtaskId {
          assert front[i] in front && front[i] in mine[..|mine| - 1];
          var j :| 0 <= j < |mine| - 1 && mine[j] == front[i];
          assert DistinctTools(mine);
        }
      }
    }
  }

  /** In every completed run no two results share subtask and tool, so the
      digest's winner lookup is unambiguous. */
  lemma ResultsAreKeyed(s: State)
    requires Completed(s)
    ensures s.results.Some? && KeyedResults(s.results.value)
  {
    CompletedFacts(s);
    assert Orchestration.Executed(s);
    hide Orchestration.Executed, Orchestration.Decided, Completed;
    forall sid ensures DistinctTools(Filter(Of(sid), s.results.value)) {
      FilterMembers(Of(sid), s.results.value);
      if ResultsFor(s, sid) != [] {
        var r := ResultsFor(s, sid)[0];
        assert r in ResultsFor(s, sid);
        var k := ServedBy(s, r);
        ServedResults(s, k);
      }
    }
    KeyedBySubtask(s.results.value);
  }

  // ----- The first success

  predicate FirstSuccessAt(rs: seq<ToolResult>, i: int) {
    0 <= i < |rs| && rs[i].ok && forall j :: 0 <= j < i ==> !rs[j].ok
  }

  lemma SuccessesAreFiltered(results: seq<ToolResult>, sid: string)
    ensures Successes(results, sid) == Filter(IsOk(), Filter(Of(sid), results))
  {
    FilterTwice(Of(sid), IsOk(), OkFor(sid), results);
  }

  lemma HeadIsFirstSuccess(results: seq<ToolResult>, sid: string)
    ensures var rs, good := Filter(Of(sid), results), Successes(results, sid);
            && (good == [] <==> forall i :: 0 <= i < |rs| ==> !rs[i].ok)
            && (good != [] ==> exists i :: FirstSuccessAt(rs, i) && rs[i] == good[0])
  {
    SuccessesAreFiltered(results, sid);
    var rs := Filter(Of(sid), results);
    FilterMembers(IsOk(), rs);
    if Filter(IsOk(), rs) != [] {
      FilterHead(IsOk(), rs);
      assert Filter(IsOk(), rs)[0] in Filter(IsOk(), rs);
      var k :| 0 <= k < |rs| && IsOk()(rs[k]) && rs[k] == Filter(IsOk(), rs)[0] && forall i :: 0 <= i < k ==> !IsOk()(rs[i]);
      assert FirstSuccessAt(rs, k);
    } else {
      forall i | 0 <= i < |rs| ensures !rs[i].ok { assert rs[i] in rs; }
    }
  }

  lemma WinnerIsIt(results: seq<ToolResult>, r: ToolResult)
    requires KeyedResults(results) && r in results
    ensures Winner(results, r.subtaskId, r.tool) == Some(r)
  {
    var p := OfTool(r.subtaskId, r.tool);
    FilterMembers(p, results);
    var found := Filter(p, results);
    assert r in found;
    assert found[0] in found;
    hide Filter;
    var i :| 0 <= i < |results| && results[i] == r;
    var j :| 0 <= j < |results| && results[j] == found[0];
    assert i == j;
  }

  // ----- The conflicts of a completed run

  lemma {:induction false} FilterDistinctTools(p: ToolResult -> bool, rs: seq<ToolResult>)
    requires DistinctTools(rs)
    ensures DistinctTools(Filter(p, rs))
  {
    if rs != [] {
      var front := rs[..|rs| - 1];
      FilterDistinctTools(p, front);
      FilterMembers(p, front);
      var r := Filter(p, front);
      forall i | 0 <= i < |r| ensures r[i].tool != rs[|rs| - 1].tool {
        assert r[i] in front;
      }
    }
  }

  /** A conflict holds the subtask's successes, from distinct tools and by
      descending priority at the time of routing. */
  lemma ConflictIsSorted(s: State, c: Conflict)
    requires Orchestration.Executed(s) && c in Conflicts(s.results.value)
    ensures c.results != [] && c.results == Successes(s.results.value, c.subtaskId)
    ensures DistinctTools(c.results) && SortedBy(PriorityOf(LastRoute(s).tools), c.results)
    ensures forall r :: r in c.results ==> r in s.results.value && r.ok && r.subtaskId == c.subtaskId
    ensures c.subtaskId in Ids(s.plan.value.subtasks)
  {
    ConflictTheorem(s.results.value);
    Guarantees.ResultsBelongToPlan(s);
    hide Conflicts;
    var sid := c.subtaskId;
    FilterMembers(OkFor(sid), s.results.value);
    assert c.results[0] in c.results;
    hide Orchestration.Executed;
    var k := ServedBy(s, c.results[0]);
    ServedResults(s, k);
    SuccessesAreFiltered(s.results.value, sid);
    FilterSorted(IsOk(), PriorityOf(LastRoute(s).tools), ResultsFor(s, sid));
    FilterDistinctTools(IsOk(), ResultsFor(s, sid));
  }

  /** Conflict i of a completed run, and how it was decided. */
  lemma ConflictFacts(s: State, i: nat)
    requires Completed(s) && i < |s.resolutions|
    ensures s.results.Some? && s.conflicts.Some? && i < |s.conflicts.value| == |s.resolutions| == |s.log.verdicts|
    ensures s.plan.Some? && s.log.routes != []
    ensures var c := s.conflicts.value[i];
            && Orchestration.DecidedBy(c, s.policy, s.log.verdicts[i], s.resolutions[i])
            && c.results != [] && c.results == Successes(s.results.value, c.subtaskId)
            && DistinctTools(c.results) && SortedBy(PriorityOf(LastRoute(s).tools), c.results)
            && (forall r :: r in c.results ==> r in s.results.value && r.ok && r.subtaskId == c.subtaskId)
            && c.subtaskId in Ids(s.plan.value.subtasks)
  {
    CompletedFacts(s);
    assert Orchestration.Executed(s);
    hide Orchestration.Executed, Orchestration.DecidedBy, Completed, Conflicts, Settled;
    ConflictIsSorted(s, s.conflicts.value[i]);
  }

  /** The tools of conflict i still had, when the resolver took it up, the
      priorities they had at routing. */
  predicate KeptPriorities(s: State, i: nat)
    requires s.log.routes != [] && s.conflicts.Some? && i < |s.conflicts.value| && i < |s.log.verdicts|
  {
    forall r :: r in s.conflicts.value[i].results ==>
                  PriorityOf(s.log.verdicts[i].tools)(r) == PriorityOf(LastRoute(s).tools)(r)
  }

  /** Priority resolution, and every fallback from the model, names the first
      success of the conflict exactly when that one's tool still has the highest
      priority at that moment -- as it does whenever the conflict's tools kept
      the priorities they had at routing. */
  lemma PriorityPicksFirst(s: State, i: nat)
    requires Completed(s) && i < |s.resolutions|
    requires s.policy.ByPriority? || s.resolutions[i].rationale.FellBack?
    ensures s.log.routes != [] && s.conflicts.Some? && i < |s.conflicts.value| && i < |s.log.verdicts|
    ensures var c, tools := s.conflicts.value[i], s.log.verdicts[i].tools;
            && c.results != []
            && (s.resolutions[i].chosenTool == c.results[0].tool <==> FirstOnTop(c, tools))
            && (KeptPriorities(s, i) ==> FirstOnTop(c, tools))
  {
    ConflictFacts(s, i);
    var c, v := s.conflicts.value[i], s.log.verdicts[i];
    FirstIsPicked(c, s.policy, v.tools, v.reply);
    hide Completed, Successes, PriorityOf;
    if KeptPriorities(s, i) {
      forall j | 0 <= j < |c.results| ensures PriorityOf(v.tools)(c.results[j]) <= PriorityOf(v.tools)(c.results[0]) {
        assert c.results[j] in c.results && c.results[0] in c.results;
        assert j == 0 || PriorityOf(LastRoute(s).tools)(c.results[0]) >= PriorityOf(LastRoute(s).tools)(c.results[j]);
      }
    }
  }

  // ----- The answer, under every policy

  /** w is the result that decides conflict i: a success of the conflicted
      subtask, picked by the policy under the registry and the model reply of
      that moment, and the one the digest's lookup finds. */
  predicate Decides(s: State, i: nat, w: ToolResult)
    requires s.results.Some? && s.conflicts.Some? && i < |s.conflicts.value| && i < |s.log.verdicts| && i < |s.resolutions|
  {
    var c, v := s.conflicts.value[i], s.log.verdicts[i];
    && w in c.results && w in s.results.value && w.ok && w.subtaskId == c.subtaskId
    && Picked(c, s.policy, v.tools, v.reply, w)
    && Winner(s.results.value, s.resolutions[i].subtaskId, s.resolutions[i].chosenTool) == Some(w)
  }

  /** In every completed run each conflict is decided by exactly one of its
      results, and the digest reports that result's payload and no other. */
  lemma WinnerTheorem(s: State, i: nat) returns (w: ToolResult)
    requires Completed(s) && i < |s.resolutions|
    ensures s.results.Some? && s.answer.Some? && s.conflicts.Some? && i < |s.conflicts.value| == |s.log.verdicts| == |s.resolutions|
    ensures Decides(s, i, w)
    ensures forall x :: Decides(s, i, x) ==> x == w
    ensures forall data :: Reported(s.answer.value, s.conflicts.value[i].subtaskId, data) <==> data == w.data
  {
    ConflictFacts(s, i);
    ResultsAreKeyed(s);
    w := PickedWinner(s, i);
    var c := s.conflicts.value[i];
    var sid := c.subtaskId;
    CompletedFacts(s);
    OneResolution(Orchestration.FactsOf(s), i);
    DigestTheorem(s, sid, map[]);
    hide Completed, Picked, Winner, Successes, KeyedResults, ResolutionFor, Reported, SortedBy;
    hide Orchestration.DecidedBy;
    assert AnswerFor(Orchestration.FactsOf(s), sid) == w.data;
    forall data ensures Reported(s.answer.value, sid, data) <==> data == w.data {
      DigestTheorem(s, sid, data);
    }
  }

  lemma PickedWinner(s: State, i: nat) returns (w: ToolResult)
    requires Completed(s) && i < |s.resolutions|
    ensures s.results.Some? && s.conflicts.Some? && i < |s.conflicts.value| == |s.log.verdicts| == |s.resolutions|
    ensures Decides(s, i, w) && s.resolutions[i].subtaskId == s.conflicts.value[i].subtaskId
  {
    ConflictFacts(s, i);
    ResultsAreKeyed(s);
    var c, v := s.conflicts.value[i], s.log.verdicts[i];
    ResolutionMeaning(c, s.policy, v.tools, v.reply);
    hide Completed, Successes, KeyedResults, ResolveOne, SortedBy, Winner;
    w :| Picked(c, s.policy, v.tools, v.reply, w) && w.tool == s.resolutions[i].chosenTool;
    WinnerIsIt(s.results.value, w);
  }

  /** w is a success of the subtask and, if the subtask was conflicted, the one
      the policy picked. */
  predicate IsAnswer(s: State, sid: string, w: ToolResult)
    requires s.results.Some? && s.conflicts.Some? && |s.conflicts.value| == |s.log.verdicts|
  {
    IsAnswerBy(s, s.policy, sid, w)
  }

  predicate IsAnswerBy(s: State, policy: ResolvePolicy, sid: string, w: ToolResult)
    requires s.results.Some? && s.conflicts.Some? && |s.conflicts.value| == |s.log.verdicts|
  {
    && w in s.results.value && w.ok && w.subtaskId == sid
    && forall i :: 0 <= i < |s.conflicts.value| && s.conflicts.value[i].subtaskId == sid ==>
         Picked(s.conflicts.value[i], policy, s.log.verdicts[i].tools, s.log.verdicts[i].reply, w)
  }

  lemma OneConflictEach(s: State)
    requires Completed(s)
    ensures s.conflicts.Some?
    ensures forall i, j :: 0 <= i < j < |s.conflicts.value| ==> s.conflicts.value[i].subtaskId != s.conflicts.value[j].subtaskId
  {
    CompletedFacts(s);
    ConflictTheorem(s.results.value);
    hide Orchestration.Decided, Completed, Settled, Summary, Conflicts;
  }

  lemma ConflictedAnswer(s: State, i: nat, data: Payload)
    requires Completed(s) && i < |s.resolutions|
    ensures s.results.Some? && s.answer.Some? && s.conflicts.Some? && i < |s.conflicts.value| == |s.log.verdicts| == |s.resolutions|
    ensures var sid := s.conflicts.value[i].subtaskId;
            Reported(s.answer.value, sid, data) <==> exists w :: IsAnswer(s, sid, w) && w.data == data
  {
    ConflictFacts(s, i);
    var w := WinnerTheorem(s, i);
    OneConflictEach(s);
    hide Completed, Picked, Winner, Successes, Reported, SortedBy;
    hide Orchestration.DecidedBy;
    var c := s.conflicts.value[i];
    assert IsAnswer(s, c.subtaskId, w);
    forall x | IsAnswer(s, c.subtaskId, x) ensures x == w {
      OnePick(c, s.policy, s.log.verdicts[i].tools, s.log.verdicts[i].reply, w, x);
    }
  }

  lemma UnconflictedAnswer(s: State, sid: string, data: Payload)
    requires Completed(s) && s.conflicts.Some? && forall c :: c in s.conflicts.value ==> c.subtaskId != sid
    requires s.plan.Some? && sid in Ids(s.plan.value.subtasks)
    ensures s.results.Some? && s.answer.Some?
    ensures Reported(s.answer.value, sid, data) <==>
            exists w :: w in s.results.value && w.ok && w.subtaskId == sid && w.data == data
  {
    CompletedFacts(s);
    DigestTheorem(s, sid, data);
    ConflictTheorem(s.results.value);
    ResolutionForMeaning(s.resolutions, sid);
    var results := s.results.value;
    FilterMembers(OkFor(sid), results);
    var f := Orchestration.FactsOf(s);
    SettledSubtask(f, sid);
    assert !Disagree(results, sid);
    hide Orchestration.Decided, Completed, Settled, Reported, Summary, Conflicts, Filter, ResolutionFor;
    var good := Successes(results, sid);
    assert forall r :: r in good <==> r in results && OkFor(sid)(r);
    if good != [] {
      assert good[0] in good;
      assert AnswerFor(f, sid) == good[0].data;
    }
  }

  /** In every completed run, under every policy and whatever happened to the
      registry on the way: the digest reports a payload for a subtask exactly
      when it is the payload of one of its successes -- for a conflicted subtask,
      of the one the policy picked. */
  lemma AnswerTheorem(s: State, sid: string, data: Payload)
    requires Completed(s) && s.plan.Some? && sid in Ids(s.plan.value.subtasks)
    ensures s.results.Some? && s.answer.Some? && s.conflicts.Some? && |s.conflicts.value| == |s.log.verdicts|
    ensures Reported(s.answer.value, sid, data) <==> exists w :: IsAnswer(s, sid, w) && w.data == data
  {
    CompletedFacts(s);
    hide Orchestration.Executed, Completed, Settled, Picked, Conflicts, Reported, Summary;
    if i :| 0 <= i < |s.conflicts.value| && s.conflicts.value[i].subtaskId == sid {
      ConflictedAnswer(s, i, data);
    } else {
      UnconflictedAnswer(s, sid, data);
    }
  }

  /** The same for a request: what is reported goes by the policy that was asked
      for, and in PRIORITY mode, if that was asked for, nothing conflicts. */
  lemma RequestedAnswer(s: State, scope: set<Scope>, given: Option<Tools>, global: Tools, mode: RouterMode, policy: ResolvePolicy,
                        sequential: bool, actions: seq<Orchestration.Action>, sid: string, data: Payload)
    requires Guarantees.Requested(s, scope, given, global, mode, policy, sequential, actions) && s.node == Orchestration.AtEnd
    ensures s.plan.Some? && s.results.Some? && s.answer.Some? && s.conflicts.Some? && |s.conflicts.value| == |s.log.verdicts|
    ensures sid in Ids(s.plan.value.subtasks) ==>
              (Reported(s.answer.value, sid, data) <==> exists w :: IsAnswerBy(s, policy, sid, w) && w.data == data)
    ensures mode.Priority? ==> s.conflicts == Some([])
  {
    Guarantees.RequestIsServed(s, scope, given, global, mode, policy, sequential, actions);
    CompletedFacts(s);
    if mode.Priority? { PriorityModeNeverConflicts(s); }
    hide Completed, Settled, IsAnswerBy, Conflicts, Reported, Summary;
    hide Orchestration.Executed;
    hide Guarantees.Requested, Guarantees.Reachable;
    if sid in Ids(s.plan.value.subtasks) { AnswerTheorem(s, sid, data); }
  }

  /** PRIORITY mode asks one tool per subtask, so nothing can conflict. */
  lemma PriorityModeNeverConflicts(s: State)
    requires Completed(s) && s.mode.Priority?
    ensures s.conflicts == Some([])
  {
    CompletedFacts(s);
    assert Orchestration.Executed(s);
    ConflictTheorem(s.results.value);
    hide Orchestration.Decided, Completed, Conflicts, Settled;
    if s.conflicts.value != [] {
      var c := s.conflicts.value[0];
      assert c in s.conflicts.value;
      FilterMembers(OkFor(c.subtaskId), s.results.value);
      assert c.results[0] in c.results && c.results[1] in c.results;
      var k := ServedBy(s, c.results[0]);
      ProvidersAsked(s, k);
      var st := LastRoute(s).plan.subtasks[k];
      AtMostOne(LastRoute(s).tools, st.capability, s.scope);
      SuccessesAreFiltered(s.results.value, c.subtaskId);
      FilterShorter(IsOk(), ResultsFor(s, c.subtaskId));
    }
  }

  lemma AtMostOne(tools: Tools, cap: string, scope: set<Scope>)
    requires tools.Valid()
    ensures |PermittedTools(Chosen(tools, cap, Priority), scope)| <= 1
  {
    FilterShorter(ToolGranted(scope), Chosen(tools, cap, Priority));
    hide FindByCapability, Filter;
  }

  lemma {:induction false} FilterShorter<T(!new)>(p: T -> bool, s: seq<T>)
    ensures |Filter(p, s)| <= |s|
  {
    if s != [] { FilterShorter(p, s[..|s| - 1]); }
  }

  /** Priority decides this subtask's answer: only the top tool was asked in the
      first place, or the policy is priority and no tool of a conflict has
      overtaken the first one since routing. */
  predicate PriorityDecides(s: State, sid: string)
    requires s.conflicts.Some? && |s.conflicts.value| == |s.log.verdicts|
  {
    s.mode.Priority? ||
    (s.policy.ByPriority? && forall i :: 0 <= i < |s.conflicts.value| && s.conflicts.value[i].subtaskId == sid ==>
       s.conflicts.value[i].results != [] && FirstOnTop(s.conflicts.value[i], s.log.verdicts[i].tools))
  }

  lemma ConflictPicksFirst(c: Conflict, tools: Tools, reply: Outcome<Adjudication>)
    requires c.results != [] && FirstOnTop(c, tools)
    ensures Picked(c, ByPriority, tools, reply, c.results[0])
  {
    hide PriorityOf;
  }

  /** Then the reported payload of a subtask is that of its first success. */
  lemma ReportedIsFirstSuccess(s: State, sid: string, data: Payload)
    requires Completed(s) && s.plan.Some? && sid in Ids(s.plan.value.subtasks)
    requires s.conflicts.Some? && |s.conflicts.value| == |s.log.verdicts| && PriorityDecides(s, sid)
    ensures s.results.Some? && s.answer.Some?
    ensures var rs := ResultsFor(s, sid);
            Reported(s.answer.value, sid, data) <==> exists i :: FirstSuccessAt(rs, i) && rs[i].data == data
  {
    DigestTheorem(s, sid, data);
    HeadIsFirstSuccess(s.results.value, sid);
    var rs, good := ResultsFor(s, sid), Successes(s.results.value, sid);
    if good != [] { FirstSuccessReported(s, sid); }
    assert rs == Filter(Of(sid), s.results.value);
    hide Completed, Reported, AnswerFor, Filter, Successes, ResultsFor, PriorityDecides;
    if good != [] {
      var i :| FirstSuccessAt(rs, i) && rs[i] == good[0];
      forall j | FirstSuccessAt(rs, j) ensures j == i {}
    }
  }

  lemma FirstSuccessReported(s: State, sid: string)
    requires Completed(s) && s.plan.Some? && sid in Ids(s.plan.value.subtasks)
    requires s.conflicts.Some? && |s.conflicts.value| == |s.log.verdicts| && PriorityDecides(s, sid)
    requires s.results.Some? && Successes(s.results.value, sid) != []
    ensures AnswerFor(Orchestration.FactsOf(s), sid) == Successes(s.results.value, sid)[0].data
  {
    var good := Successes(s.results.value, sid);
    var data := good[0].data;
    AnswerTheorem(s, sid, data);
    DigestTheorem(s, sid, data);
    if s.mode.Priority? { PriorityModeNeverConflicts(s); }
    FilterMembers(OkFor(sid), s.results.value);
    assert good[0] in good;
    forall i | 0 <= i < |s.conflicts.value| && s.conflicts.value[i].subtaskId == sid
      ensures Picked(s.conflicts.value[i], s.policy, s.log.verdicts[i].tools, s.log.verdicts[i].reply, good[0])
    {
      ConflictFacts(s, i);
      ConflictPicksFirst(s.conflicts.value[i], s.log.verdicts[i].tools, s.log.verdicts[i].reply);
    }
    hide Completed, Reported, AnswerFor, Filter, Picked;
    assert IsAnswer(s, sid, good[0]);
  }

  /** The end-to-end theorem.  In ALL mode under the priority policy every
      permitted provider of the subtask was asked in `find_by_capability` order;
      and unless a tool of the subtask's conflict overtook the first one between
      routing and resolution, the digest reports exactly the payload of the first
      provider that succeeded, conflict or not. */
  lemma FirstSuccessTheorem(s: State, k: nat, data: Payload)
    requires Completed(s) && s.mode.All? && s.policy.ByPriority?
    requires s.log.routes != [] && RegistryOk(LastRoute(s).tools) && LastRoutable(LastRoute(s).plan.subtasks, LastRoute(s).tools, k)
    ensures s.results.Some? && s.answer.Some? && s.conflicts.Some? && |s.conflicts.value| == |s.log.verdicts|
    ensures var st := LastRoute(s).plan.subtasks[k];
            var rs := ResultsFor(s, st.id);
            && AnsweredInOrder(rs, PermittedTools(FindByCapability(LastRoute(s).tools, st.capability), s.scope))
            && (PriorityDecides(s, st.id) ==>
                  (Reported(s.answer.value, st.id, data) <==> exists i :: FirstSuccessAt(rs, i) && rs[i].data == data))
  {
    CompletedFacts(s);
    assert Orchestration.Executed(s);
    var st := LastRoute(s).plan.subtasks[k];
    assert st.id in Ids(s.plan.value.subtasks);
    ProvidersAsked(s, k);
    hide Orchestration.Executed, Completed, Settled, Conflicts, Summary, FindByCapability, Reported, PriorityDecides, ResultsFor, Routable;
    if PriorityDecides(s, st.id) { ReportedIsFirstSuccess(s, st.id, data); }
  }

  /** In particular: if the tools of the subtask's conflict kept the priorities
      they had at routing, the first success is what is reported. */
  lemma KeptPrioritiesDecide(s: State, sid: string)
    requires Completed(s) && s.mode.All? && s.policy.ByPriority?
    requires s.log.routes != [] && s.conflicts.Some? && |s.conflicts.value| == |s.log.verdicts|
    requires forall i :: 0 <= i < |s.conflicts.value| && s.conflicts.value[i].subtaskId == sid ==> KeptPriorities(s, i)
    ensures PriorityDecides(s, sid)
  {
    CompletedFacts(s);
    hide Completed, KeptPriorities, FirstOnTop, Conflicts, Settled, Summary;
    hide Orchestration.Executed;
    forall i | 0 <= i < |s.conflicts.value| && s.conflicts.value[i].subtaskId == sid
      ensures s.conflicts.value[i].results != [] && FirstOnTop(s.conflicts.value[i], s.log.verdicts[i].tools)
    {
      PriorityPicksFirst(s, i);
    }
  }

  /** So with a registry that stays as it was routed, for the tools in question,
      calling everyone and resolving by priority is taking the first success. */
  lemma SteadyFirstSuccess(s: State, k: nat, data: Payload)
    requires Completed(s) && s.mode.All? && s.policy.ByPriority?
    requires s.log.routes != [] && RegistryOk(LastRoute(s).tools) && LastRoutable(LastRoute(s).plan.subtasks, LastRoute(s).tools, k)
    requires s.conflicts.Some? && |s.conflicts.value| == |s.log.verdicts|
    requires forall i :: 0 <= i < |s.conflicts.value| && s.conflicts.value[i].subtaskId == LastRoute(s).plan.subtasks[k].id ==> KeptPriorities(s, i)
    ensures s.results.Some? && s.answer.Some?
    ensures var st := LastRoute(s).plan.subtasks[k];
            var rs := ResultsFor(s, st.id);
            && AnsweredInOrder(rs, PermittedTools(FindByCapability(LastRoute(s).tools, st.capability), s.scope))
            && (Reported(s.answer.value, st.id, data) <==> exists i :: FirstSuccessAt(rs, i) && rs[i].data == data)
  {
    hide Completed, KeptPriorities, PriorityDecides, FindByCapability, Reported, ResultsFor, Routable;
    KeptPrioritiesDecide(s, LastRoute(s).plan.subtasks[k].id);
    FirstSuccessTheorem(s, k, data);
  }

  lemma TopToolFirst(tools: Tools, cap: string, mode: RouterMode, scope: set<Scope>)
    requires tools.Valid() && FindByCapability(tools, cap) != [] && FindByCapability(tools, cap)[0].manifest.scope in scope
    ensures PermittedTools(Chosen(tools, cap, mode), scope) != []
    ensures PermittedTools(Chosen(tools, cap, mode), scope)[0] == FindByCapability(tools, cap)[0]
  {
    var chosen := Chosen(tools, cap, mode);
    var top := FindByCapability(tools, cap)[0];
    assert chosen[0] == top;
    hide FindByCapability, Chosen;
    assert chosen == [top] + chosen[1..];
    FilterAppend(ToolGranted(scope), [top], chosen[1..]);
    FilterSnoc(ToolGranted(scope), [], top);
    assert [] + [top] == [top];
  }

  lemma TopAnswers(s: State, k: nat, data: Payload)
    requires Completed(s) && s.conflicts.Some? && |s.conflicts.value| == |s.log.verdicts|
    requires s.log.routes != [] && RegistryOk(LastRoute(s).tools) && LastRoutable(LastRoute(s).plan.subtasks, LastRoute(s).tools, k)
    requires var found := FindByCapability(LastRoute(s).tools, LastRoute(s).plan.subtasks[k].capability);
             found != [] && found[0].manifest.scope in s.scope
    requires PriorityDecides(s, LastRoute(s).plan.subtasks[k].id)
    ensures s.results.Some? && s.answer.Some?
    ensures var st := LastRoute(s).plan.subtasks[k];
            var rs := ResultsFor(s, st.id);
            && rs != [] && rs[0].tool == FindByCapability(LastRoute(s).tools, st.capability)[0].manifest.name
            && (rs[0].ok ==> (Reported(s.answer.value, st.id, data) <==> data == rs[0].data))
  {
    CompletedFacts(s);
    assert Orchestration.Executed(s);
    var st := LastRoute(s).plan.subtasks[k];
    ProvidersAsked(s, k);
    TopToolFirst(LastRoute(s).tools, st.capability, s.mode, s.scope);
    assert st.id in Ids(s.plan.value.subtasks);
    hide Orchestration.Executed, Orchestration.Decided, Completed, Settled, Conflicts, Summary;
    hide FindByCapability, Reported, Chosen, PermittedTools, Routable;
    ReportedIsFirstSuccess(s, st.id, data);
    var rs := ResultsFor(s, st.id);
    if rs[0].ok {
      assert FirstSuccessAt(rs, 0);
      forall i | FirstSuccessAt(rs, i) ensures i == 0 {}
    }
  }

  /** ALL mode agrees with PRIORITY mode: two completed runs over the same plan,
      registry and scope, one calling every provider under the priority policy
      and one only the top one (under any policy), report the same payload for a
      subtask whose top tool is permitted, succeeded with the same payload in
      both, and was not overtaken before the first run resolved its conflicts. */
  lemma ModesAgree(all: State, one: State, k: nat, data: Payload)
    requires Completed(all) && all.mode.All? && all.policy.ByPriority?
    requires Completed(one) && one.mode.Priority?
    requires all.log.routes != [] && one.log.routes != [] && LastRoute(all) == LastRoute(one) && all.scope == one.scope
    requires RegistryOk(LastRoute(all).tools) && LastRoutable(LastRoute(all).plan.subtasks, LastRoute(all).tools, k)
    requires FindByCapability(LastRoute(all).tools, LastRoute(all).plan.subtasks[k].capability)[0].manifest.scope in all.scope
    requires all.results.Some? && one.results.Some?
    requires var sid := LastRoute(all).plan.subtasks[k].id;
             var a, b := ResultsFor(all, sid), ResultsFor(one, sid);
             a != [] && b != [] && a[0].ok && b[0].ok && a[0].data == b[0].data
    requires all.conflicts.Some? && |all.conflicts.value| == |all.log.verdicts|
    requires PriorityDecides(all, LastRoute(all).plan.subtasks[k].id)
    ensures all.answer.Some? && one.answer.Some?
    ensures var sid := LastRoute(all).plan.subtasks[k].id;
            && ResultsFor(all, sid)[0].tool == ResultsFor(one, sid)[0].tool
            && (Reported(all.answer.value, sid, data) <==> Reported(one.answer.value, sid, data))
  {
    hide Completed, FindByCapability, Reported, ResultsFor;
    CompletedFacts(one);
    TopAnswers(all, k, data);
    TopAnswers(one, k, data);
  }
}
