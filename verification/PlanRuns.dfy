/** Executing a plan: the scheduler and the barrier protocol together
    (`run`, src/orchestrator/executor.py). */
module PlanRuns {
  import opened Seqs
  import opened Manifests
  import opened ToolIndex
  import opened Layering
  import opened TopoBatches
  import opened Schedule
  import opened Invocation
  import opened Executor
  import opened Timing

  /** cfg executes the allowed calls of the plan. */
  predicate Executes(cfg: Config, plan: Plan, calls: seq<ToolCall>) {
    cfg.batches == BatchCalls(plan, calls)
  }

  /** Dependency safety, for every interleaving and every registry change along
      the way: if a call of subtask a has started and a depends on runnable b,
      every call of b has ended before -- unless a and b are both blocked, which
      puts them in the one fallback batch.  (When every call belongs to the
      plan, being blocked means reaching a dependency cycle.) */
  lemma DependencySafety(cfg: Config, plan: Plan, calls: seq<ToolCall>, tools: Tools, clock: real, steps: seq<Step>,
                         p: nat, k: nat, j: nat, k2: nat, j2: nat)
    requires RegistryOk(tools) && Run(cfg, Initial(tools, clock), steps).Some?
    requires var trace := Run(cfg, Initial(tools, clock), steps).value.trace;
             p < |trace| && trace[p] == Started(k, j)
    requires k < |cfg.batches| && j < |cfg.batches[k]| && k2 < |cfg.batches| && j2 < |cfg.batches[k2]|
    ensures Executes(cfg, plan, calls) ==>
              var trace := Run(cfg, Initial(tools, clock), steps).value.trace;
              var g := RunGraph(plan, calls);
              var a, b := cfg.batches[k][j].subtaskId, cfg.batches[k2][j2].subtaskId;
              && a in g && b in g
              && (b in g[a] && !(Blocked(g, a) && Blocked(g, b)) ==> exists q :: 0 <= q < p && trace[q] == Ended(k2, j2))
  {
    if Executes(cfg, plan, calls) {
      hide Run, BatchCalls, RunGraph, Layers, Stuck, Blocked;
      var g := RunGraph(plan, calls);
      var a, b := cfg.batches[k][j].subtaskId, cfg.batches[k2][j2].subtaskId;
      CallPlacement(plan, calls, k, cfg.batches[k][j]);
      CallPlacement(plan, calls, k2, cfg.batches[k2][j2]);
      if b in g[a] && !(Blocked(g, a) && Blocked(g, b)) {
        EdgeTheorem(g, a, b);
        StuckMeaning(g, a);
        StuckMeaning(g, b);
        BarrierSafety(cfg, tools, clock, steps, p, k, j, k2, j2);
      }
    }
  }

  /** In a run whose calls all belong to the plan, a subtask is blocked exactly
      when its dependencies reach a cycle. */
  lemma BlockedMeansCyclic(plan: Plan, calls: seq<ToolCall>, n: string)
    requires Runnable(calls) <= Ids(plan.subtasks) && n in Runnable(calls)
    ensures n in RunGraph(plan, calls)
    ensures Blocked(RunGraph(plan, calls), n) <==> ReachesCycle(RunGraph(plan, calls), n)
  {
    var g := RunGraph(plan, calls);
    RunGraphClosed(plan, calls);
    hide RunGraph, Layers, Stuck, ReachesCycle;
    FallbackTheorem(g);
    StuckMeaning(g, n);
  }

  /** Every call of a plan subtask has its place in some batch. */
  lemma CallIsScheduled(plan: Plan, calls: seq<ToolCall>, c: ToolCall) returns (k: nat, j: nat)
    requires c in calls && c.subtaskId in Ids(plan.subtasks)
    ensures k < |BatchCalls(plan, calls)| && j < |BatchCalls(plan, calls)[k]| && BatchCalls(plan, calls)[k][j] == c
  {
    var all := BatchCalls(plan, calls);
    SchedulingConserves(plan, calls);
    FilterMembers(OfAny(Ids(plan.subtasks)), calls);
    hide BatchCalls, Filter;
    assert c in multiset(Filter(OfAny(Ids(plan.subtasks)), calls));
    assert c in Flatten(all);
    FlattenMember(all, c);
    k :| 0 <= k < |all| && c in all[k];
    j :| 0 <= j < |all[k]| && all[k][j] == c;
  }

  lemma ScheduledCallIsAllowed(plan: Plan, calls: seq<ToolCall>, k: nat, c: ToolCall)
    requires k < |BatchCalls(plan, calls)| && c in BatchCalls(plan, calls)[k]
    ensures c in calls
  {
    CallsOfBatchMembers(calls, BatchIds(plan, calls)[k], c);
    hide BatchIds, CallsOfBatch;
  }

  // ----- The result list

  datatype Pair = Pair(subtaskId: string, tool: string)

  function CallPair(c: ToolCall): Pair { Pair(c.subtaskId, c.tool) }

  function ResultPair(r: ToolResult): Pair { Pair(r.subtaskId, r.tool) }

  function Of(sid: string): ToolResult -> bool {
    (r: ToolResult) => r.subtaskId == sid
  }

  /** rs answers cs call by call. */
  predicate AnswerList(cs: seq<ToolCall>, rs: seq<ToolResult>) {
    |rs| == |cs| && forall i :: 0 <= i < |cs| ==> AnswersCall(cs[i], rs[i])
  }

  predicate AnswersCall(c: ToolCall, r: ToolResult) {
    r.subtaskId == c.subtaskId && r.tool == c.tool && r.capability == c.capability && (r.ok <==> r.error == NoFailure)
  }

  lemma {:induction false} FlattenAnswers(css: seq<seq<ToolCall>>, rss: seq<seq<ToolResult>>)
    requires |rss| == |css| && forall k :: 0 <= k < |css| ==> AnswerList(css[k], rss[k])
    ensures AnswerList(Flatten(css), Flatten(rss))
  {
    if css != [] {
      FlattenAnswers(css[..|css| - 1], rss[..|rss| - 1]);
    }
  }

  lemma {:induction false} FilterAnswers(cs: seq<ToolCall>, rs: seq<ToolResult>, sid: string)
    requires AnswerList(cs, rs)
    ensures AnswerList(CallsFor(cs, sid), Filter(Of(sid), rs))
  {
    if cs != [] {
      FilterAnswers(cs[..|cs| - 1], rs[..|rs| - 1], sid);
    }
  }

  /** A completed run answers the scheduled calls one by one, in order. */
  lemma ResultsAnswerCalls(cfg: Config, tools: Tools, clock: real, steps: seq<Step>)
    requires RegistryOk(tools) && Run(cfg, Initial(tools, clock), steps).Some?
    requires Complete(cfg, Run(cfg, Initial(tools, clock), steps).value)
    ensures AnswerList(Flatten(cfg.batches), AllResults(Run(cfg, Initial(tools, clock), steps).value))
  {
    ResultsMeaning(cfg, tools, clock, steps);
    var s := Run(cfg, Initial(tools, clock), steps).value;
    hide Run;
    forall k | 0 <= k < |cfg.batches| ensures AnswerList(cfg.batches[k], s.done[k]) {
      forall j | 0 <= j < |cfg.batches[k]| ensures AnswersCall(cfg.batches[k][j], s.done[k][j]) {
        var call := cfg.batches[k][j];
        assert Answers(cfg, Initial(tools, clock), steps, k, j, s.done[k][j]);
        var tool :| Fills(call, tool, cfg.replies(k, j), s.done[k][j]);
        FillsMeaning(call, tool, cfg.replies(k, j), s.done[k][j]);
      }
    }
    FlattenAnswers(cfg.batches, s.done);
  }

  lemma {:induction false} AnswerPairs(cs: seq<ToolCall>, rs: seq<ToolResult>)
    requires AnswerList(cs, rs)
    ensures multiset(Map(ResultPair, rs)) == multiset(Map(CallPair, cs))
  {
    assert Map(ResultPair, rs) == Map(CallPair, cs);
  }

  lemma WithoutOne(b: seq<ToolCall>, i: nat) returns (rest: seq<ToolCall>)
    requires i < |b|
    ensures |rest| == |b| - 1
    ensures multiset(b) == multiset(rest) + multiset{b[i]}
    ensures multiset(Map(CallPair, b)) == multiset(Map(CallPair, rest)) + multiset{CallPair(b[i])}
  {
    var l, r := b[..i], b[i + 1..];
    rest := l + r;
    assert b == l + [b[i]] + r;
    assert Map(CallPair, rest) == Map(CallPair, l) + Map(CallPair, r);
    assert Map(CallPair, b) == Map(CallPair, l) + [CallPair(b[i])] + Map(CallPair, r);
  }

  lemma CancelOne(a: multiset<ToolCall>, b: multiset<ToolCall>, x: ToolCall)
    requires a + multiset{x} == b + multiset{x}
    ensures a == b
  {
    assert a == (a + multiset{x}) - multiset{x} && b == (b + multiset{x}) - multiset{x};
  }

  lemma Position(b: seq<ToolCall>, x: ToolCall) returns (i: nat)
    requires x in multiset(b)
    ensures i < |b| && b[i] == x
  {
    i :| 0 <= i < |b| && b[i] == x;
  }

  lemma {:induction false} MapPermutes(a: seq<ToolCall>, b: seq<ToolCall>)
    requires multiset(a) == multiset(b)
    ensures multiset(Map(CallPair, a)) == multiset(Map(CallPair, b))
    decreases |a|
  {
    hide Map, CallPair;
    if a == [] {
      assert |multiset(b)| == |b|;
    } else {
      var a' := WithoutOne(a, 0);
      assert a[0] in multiset(a);
      var i := Position(b, a[0]);
      var b' := WithoutOne(b, i);
      CancelOne(multiset(a'), multiset(b'), a[0]);
      MapPermutes(a', b');
    }
  }

  /** The calls that are scheduled at all. */
  function PlanCalls(plan: Plan, calls: seq<ToolCall>): seq<ToolCall> {
    Filter(OfAny(Ids(plan.subtasks)), calls)
  }

  function CallsOf(plan: Plan, calls: seq<ToolCall>, sid: string): seq<ToolCall> {
    if sid in Ids(plan.subtasks) then CallsFor(calls, sid) else []
  }

  lemma ScheduledFor(plan: Plan, calls: seq<ToolCall>, sid: string)
    ensures CallsFor(Flatten(BatchCalls(plan, calls)), sid) == CallsOf(plan, calls, sid)
  {
    var cs, mine := Flatten(BatchCalls(plan, calls)), PlanCalls(plan, calls);
    SchedulingConserves(plan, calls);
    hide BatchCalls, Flatten;
    if sid !in Ids(plan.subtasks) {
      FilterMembers(OfAny(Ids(plan.subtasks)), calls);
      forall c | c in cs ensures c.subtaskId != sid { assert c in multiset(mine) && c in mine && OfAny(Ids(plan.subtasks))(c); }
      FilterNone(OfSubtask(sid), cs);
    }
  }

  lemma AllCallsPlanned(plan: Plan, calls: seq<ToolCall>)
    requires Runnable(calls) <= Ids(plan.subtasks)
    ensures PlanCalls(plan, calls) == calls
  {
    FilterAll(OfAny(Ids(plan.subtasks)), calls);
  }

  /** Conservation: for every plan, cyclic or not, the results of a completed
      run are, as a multiset of (subtask, tool) pairs, the allowed calls of plan
      subtasks; and each subtask's results come in the order of its calls. */
  lemma RunConserves(cfg: Config, plan: Plan, calls: seq<ToolCall>, tools: Tools, clock: real, steps: seq<Step>)
    requires Executes(cfg, plan, calls)
    requires RegistryOk(tools) && Run(cfg, Initial(tools, clock), steps).Some?
    requires Complete(cfg, Run(cfg, Initial(tools, clock), steps).value)
    ensures var rs := AllResults(Run(cfg, Initial(tools, clock), steps).value);
            && multiset(Map(ResultPair, rs)) == multiset(Map(CallPair, PlanCalls(plan, calls)))
            && |rs| == |PlanCalls(plan, calls)|
            && forall sid :: AnswerList(CallsOf(plan, calls, sid), Filter(Of(sid), rs))
  {
    ResultsAnswerCalls(cfg, tools, clock, steps);
    var rs := AllResults(Run(cfg, Initial(tools, clock), steps).value);
    SchedulingConserves(plan, calls);
    hide Run, BatchCalls, AllResults, Filter, Flatten, CallsOf;
    var cs, mine := Flatten(cfg.batches), PlanCalls(plan, calls);
    AnswerPairs(cs, rs);
    MapPermutes(cs, mine);
    assert |cs| == |multiset(cs)| == |multiset(mine)| == |mine|;
    forall sid ensures AnswerList(CallsOf(plan, calls, sid), Filter(Of(sid), rs)) {
      FilterAnswers(cs, rs, sid);
      ScheduledFor(plan, calls, sid);
    }
  }

  function TotalCalls(reports: seq<BatchReport>): nat {
    if reports == [] then 0 else TotalCalls(reports[..|reports| - 1]) + reports[|reports| - 1].callCount
  }

  lemma {:induction false} CallCountsOf(reports: seq<BatchReport>, done: seq<seq<ToolResult>>)
    requires |reports| == |done| && forall k :: 0 <= k < |done| ==> reports[k].callCount == |done[k]|
    ensures TotalCalls(reports) == |Flatten(done)|
  {
    if done != [] {
      CallCountsOf(reports[..|reports| - 1], done[..|done| - 1]);
    }
  }

  /** The call counts the batch reports give add up to the results. */
  lemma CountsAddUp(cfg: Config, tools: Tools, clock: real, steps: seq<Step>)
    requires RegistryOk(tools) && Run(cfg, Initial(tools, clock), steps).Some?
    ensures var s := Run(cfg, Initial(tools, clock), steps).value;
            TotalCalls(s.reports) == |AllResults(s)|
  {
    RunKeepsTiming(cfg, tools, clock, steps);
    var s := Run(cfg, Initial(tools, clock), steps).value;
    hide Run;
    forall k | 0 <= k < |s.done| ensures s.reports[k].callCount == |s.done[k]| {
      assert ReportOk(cfg, k, s.reports[k], s.done[k]);
    }
    CallCountsOf(s.reports, s.done);
  }

  // ----- What the edges do not promise

  /** Dropping a dependency on a subtask that cannot run does not connect its
      neighbours: a subtask none of whose own dependencies is runnable goes in
      the first batch, whatever those dependencies were waiting for.  (Of several
      subtasks under one id the last one's dependencies count.) */
  lemma DroppedDependencies(plan: Plan, calls: seq<ToolCall>, i: nat)
    requires LastBearer(plan.subtasks, i) && plan.subtasks[i].id in Runnable(calls)
    requires forall d :: d in plan.subtasks[i].dependsOn ==> d !in Runnable(calls)
    ensures plan.subtasks[i].id in RunGraph(plan, calls) && BatchOf(RunGraph(plan, calls), plan.subtasks[i].id) == 0
  {
    var st := plan.subtasks[i];
    DepsMeaning(plan.subtasks, Runnable(calls));
    FilterNone(Within(Runnable(calls)), st.dependsOn);
    var g := RunGraph(plan, calls);
    assert st in plan.subtasks;
    assert g[st.id] == {};
    hide RunGraph, Layers, Runnable;
    FirstBatch(g, st.id);
  }

  lemma FirstBatch(g: Graph, n: string)
    requires n in g && g[n] == {}
    ensures BatchOf(g, n) == 0
  {
    LayersShape(g);
    LayersPartition(g);
    NothingDoneAtFirst(g);
    assert n in Round(g, 0);
    DoneUnfold(g, 0);
    if Depth(g) == 0 {
      assert Done(g, 0) == g.Keys - Stuck(g);
    }
    hide Done, Round, LayersFrom, Layers;
  }
}
