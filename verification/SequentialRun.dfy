/** `run(..., sequential=True)` (src/orchestrator/executor.py) as the plain
    loops it is, proved to be one legal run of the barrier protocol. */
module SequentialRun {
  import opened Seqs
  import opened OrderedDict
  import opened Manifests
  import opened ToolIndex
  import opened Schedule
  import opened Invocation
  import opened Executor
  import PlanRuns

  /** Successive readings of the monotonic clock. */
  predicate Monotone(ticks: nat -> real, n: nat) {
    forall i, j :: 0 <= i <= j <= n ==> ticks(i) <= ticks(j)
  }

  /** The batch in progress: the first j calls are done, the rest wait. */
  predicate Underway(cfg: Config, s: State, results: seq<ToolResult>, openedAt: real) {
    && s.phase.Open? && s.phase.openedAt == openedAt
    && |s.done| < |cfg.batches| && |s.phase.slots| == |cfg.batches[|s.done|]| && |results| <= |s.phase.slots|
    && (forall i :: 0 <= i < |results| ==> s.phase.slots[i] == Finished(results[i]))
    && (forall i :: |results| <= i < |s.phase.slots| ==> s.phase.slots[i] == Waiting)
  }

  /** Time passes and the registry may change, the next call starts, time passes
      again, the call ends. */
  lemma OneCall(cfg: Config, start: State, steps: seq<Step>, s: State, results: seq<ToolResult>, openedAt: real,
                tools: Tools, started: real, finished: real, now: real) returns (more: seq<Step>, t: State)
    requires Run(cfg, start, steps) == Some(s) && RegistryOk(tools)
    requires Underway(cfg, s, results, openedAt) && |results| < |s.phase.slots| && s.clock <= started <= finished
    ensures Run(cfg, start, more) == Some(t)
    ensures var call := cfg.batches[|s.done|][|results|];
            var r := Invoke(call, tools.Get(call.tool), cfg.replies(|s.done|, |results|), started, finished, now);
            && Underway(cfg, t, results + [r], openedAt)
            && t.done == s.done && t.reports == s.reports && t.tools == tools && t.clock == finished
  {
    var j := |results|;
    hide Run, Invoke;
    var s1 := Next(cfg, s, Outside(tools, started));
    RunOne(cfg, start, steps, s, Outside(tools, started));
    var s2 := Next(cfg, s1, Start(j));
    RunOne(cfg, start, steps + [Outside(tools, started)], s1, Start(j));
    var s3 := Next(cfg, s2, Outside(tools, finished));
    RunOne(cfg, start, steps + [Outside(tools, started)] + [Start(j)], s2, Outside(tools, finished));
    t := Next(cfg, s3, Finish(j, now));
    more := steps + [Outside(tools, started)] + [Start(j)] + [Outside(tools, finished)] + [Finish(j, now)];
    RunOne(cfg, start, steps + [Outside(tools, started)] + [Start(j)] + [Outside(tools, finished)], s3, Finish(j, now));
  }

  lemma OpenOne(cfg: Config, start: State, steps: seq<Step>, s: State, openedAt: real) returns (more: seq<Step>, t: State)
    requires Run(cfg, start, steps) == Some(s) && RegistryOk(s.tools)
    requires s.phase.Between? && |s.done| < |cfg.batches| && s.clock <= openedAt
    ensures Run(cfg, start, more) == Some(t)
    ensures Underway(cfg, t, [], openedAt)
    ensures t.done == s.done && t.reports == s.reports && RegistryOk(t.tools) && t.clock == openedAt
  {
    hide Run;
    var s1 := Next(cfg, s, Outside(s.tools, openedAt));
    RunOne(cfg, start, steps, s, Outside(s.tools, openedAt));
    t := Next(cfg, s1, OpenBatch);
    more := steps + [Outside(s.tools, openedAt)] + [OpenBatch];
    RunOne(cfg, start, steps + [Outside(s.tools, openedAt)], s1, OpenBatch);
  }

  lemma CloseOne(cfg: Config, start: State, steps: seq<Step>, s: State, results: seq<ToolResult>, openedAt: real, closedAt: real)
    returns (more: seq<Step>, t: State)
    requires Run(cfg, start, steps) == Some(s) && RegistryOk(s.tools)
    requires Underway(cfg, s, results, openedAt) && |results| == |s.phase.slots| && s.clock <= closedAt
    ensures Run(cfg, start, more) == Some(t)
    ensures t.phase.Between? && t.done == s.done + [results] && RegistryOk(t.tools) && t.clock == closedAt
    ensures t.reports == s.reports + [BatchReport(|s.done|, |results|, closedAt - openedAt, TotalDuration(results))]
  {
    hide Run;
    var s1 := Next(cfg, s, Outside(s.tools, closedAt));
    RunOne(cfg, start, steps, s, Outside(s.tools, closedAt));
    t := Next(cfg, s1, CloseBatch);
    more := steps + [Outside(s.tools, closedAt)] + [CloseBatch];
    RunOne(cfg, start, steps + [Outside(s.tools, closedAt)], s1, CloseBatch);
    assert Results(s1.phase.slots) == results;
  }

  /** Each call of the batch ran between two successive clock readings, with the
      tool that was bound to its name at the first of them. */
  predicate Recorded(cfg: Config, index: nat, toolsAt: nat -> Tools, ticks: nat -> real, walls: nat -> real, n0: nat, results: seq<ToolResult>) {
    index < |cfg.batches| && |results| <= |cfg.batches[index]| &&
    forall j :: 0 <= j < |results| ==>
      var call, n := cfg.batches[index][j], n0 + 1 + 2 * j;
      results[j] == Invoke(call, toolsAt(n).Get(call.tool), cfg.replies(index, j), ticks(n), ticks(n + 1), walls(n))
  }

  /** One batch: `results = [await _invoke(c, registry) for c in calls]` between
      two clock readings.  `n` counts the readings taken so far, and
      `toolsAt(n)` is the live registry at reading n. */
  method RunBatch(cfg: Config, ghost start: State, ghost steps0: seq<Step>, ghost s0: State, toolsAt: nat -> Tools,
                  index: nat, ticks: nat -> real, ghost total: nat, walls: nat -> real, n0: nat)
    returns (results: seq<ToolResult>, report: BatchReport, n: nat, ghost steps: seq<Step>, ghost s: State)
    requires Run(cfg, start, steps0) == Some(s0) && RegistryOk(s0.tools) && forall i :: RegistryOk(toolsAt(i))
    requires s0.phase.Between? && index == |s0.done| < |cfg.batches|
    requires n0 + 2 * |cfg.batches[index]| + 2 <= total && Monotone(ticks, total) && s0.clock <= ticks(n0)
    ensures Run(cfg, start, steps) == Some(s) && RegistryOk(s.tools)
    ensures s.phase.Between? && s.done == s0.done + [results] && s.reports == s0.reports + [report]
    ensures n == n0 + 2 * |cfg.batches[index]| + 2 && s.clock <= ticks(n)
    ensures |results| == |cfg.batches[index]| && Recorded(cfg, index, toolsAt, ticks, walls, n0, results)
  {
    hide Run, Invoke, Underway;
    var calls := cfg.batches[index];
    n := n0;
    var batchStart := ticks(n);
    n := n + 1;
    steps, s := OpenOne(cfg, start, steps0, s0, batchStart);
    results := [];
    ghost var slots := SlotCount(cfg, s, results, batchStart);
    for j := 0 to |calls|
      invariant Run(cfg, start, steps) == Some(s) && Underway(cfg, s, results, batchStart)
      invariant |results| == j && n == n0 + 1 + 2 * j && Recorded(cfg, index, toolsAt, ticks, walls, n0, results)
      invariant s.done == s0.done && s.reports == s0.reports && RegistryOk(s.tools) && s.clock == ticks(n - 1)
    {
      var call := calls[j];
      var tool := toolsAt(n).Get(call.tool);
      var started := ticks(n);
      var finished := ticks(n + 1);
      slots := SlotCount(cfg, s, results, batchStart);
      steps, s := OneCall(cfg, start, steps, s, results, batchStart, toolsAt(n), started, finished, walls(n));
      results := results + [Invoke(call, tool, cfg.replies(index, j), started, finished, walls(n))];
      n := n + 2;
    }
    var closedAt := ticks(n);
    slots := SlotCount(cfg, s, results, batchStart);
    steps, s := CloseOne(cfg, start, steps, s, results, batchStart, closedAt);
    n := n + 1;
    report := BatchReport(index, |calls|, closedAt - batchStart, TotalDuration(results));
  }

  lemma SlotCount(cfg: Config, s: State, results: seq<ToolResult>, openedAt: real) returns (count: nat)
    requires Underway(cfg, s, results, openedAt)
    ensures s.phase.Open? && |s.done| < |cfg.batches| && count == |s.phase.slots| == |cfg.batches[|s.done|]|
  {
    count := |s.phase.slots|;
  }

  function Readings(batches: seq<seq<ToolCall>>): nat {
    if batches == [] then 0 else Readings(batches[..|batches| - 1]) + 2 * |batches[|batches| - 1]| + 2
  }

  lemma {:induction false} ReadingsMonotone(batches: seq<seq<ToolCall>>, k: nat)
    requires k <= |batches|
    ensures Readings(batches[..k]) <= Readings(batches)
  {
    if k == |batches| {
      assert batches[..k] == batches;
    } else {
      assert batches[..|batches| - 1][..k] == batches[..k];
      ReadingsMonotone(batches[..|batches| - 1], k);
    }
  }

  /** The same for whole batches, one after the other. */
  predicate AllRecorded(cfg: Config, toolsAt: nat -> Tools, ticks: nat -> real, walls: nat -> real, done: seq<seq<ToolResult>>) {
    |done| <= |cfg.batches| &&
    forall k :: 0 <= k < |done| ==>
      |done[k]| == |cfg.batches[k]| && Recorded(cfg, k, toolsAt, ticks, walls, Readings(cfg.batches[..k]), done[k])
  }

  lemma RecordedSnoc(cfg: Config, toolsAt: nat -> Tools, ticks: nat -> real, walls: nat -> real, done: seq<seq<ToolResult>>, batch: seq<ToolResult>)
    requires AllRecorded(cfg, toolsAt, ticks, walls, done) && |done| < |cfg.batches| && |batch| == |cfg.batches[|done|]|
    requires Recorded(cfg, |done|, toolsAt, ticks, walls, Readings(cfg.batches[..|done|]), batch)
    ensures AllRecorded(cfg, toolsAt, ticks, walls, done + [batch])
  {
    hide Recorded, Readings;
  }

  lemma ReadingsStep(batches: seq<seq<ToolCall>>, k: nat)
    requires k < |batches|
    ensures Readings(batches[..k + 1]) == Readings(batches[..k]) + 2 * |batches[k]| + 2 <= Readings(batches)
  {
    assert batches[..k + 1][..k] == batches[..k];
    ReadingsMonotone(batches, k + 1);
  }

  /** The whole sequential run, each tool looked up in the registry as it is when
      its call starts: every record is the one its call's reply makes of that
      tool, and the result list and the reports are those of a completed run of
      the protocol, so everything proved of all runs holds of it. */
  method RunSequentially(plan: Plan, allowed: seq<ToolCall>, toolsAt: nat -> Tools, replies: (nat, nat) -> Reply,
                         ticks: nat -> real, walls: nat -> real)
    returns (results: seq<ToolResult>, reports: seq<BatchReport>, ghost steps: seq<Step>)
    requires forall i :: RegistryOk(toolsAt(i))
    requires Monotone(ticks, Readings(BatchCalls(plan, allowed)))
    ensures PlanRuns.AnswerList(Flatten(BatchCalls(plan, allowed)), results)
    ensures var cfg := Config(BatchCalls(plan, allowed), true, replies);
            var end := Run(cfg, Initial(toolsAt(0), ticks(0)), steps);
            && end.Some? && Complete(cfg, end.value)
            && results == AllResults(end.value) && reports == end.value.reports
            && AllRecorded(cfg, toolsAt, ticks, walls, end.value.done)
  {
    var batches := PlanBatches(plan, allowed);
    hide BatchCalls, Recorded, Monotone;
    var cfg := Config(batches, true, replies);
    ghost var start := Initial(toolsAt(0), ticks(0));
    ghost var s := start;
    steps := [];
    results, reports := [], [];
    var n: nat := 0;
    assert AllRecorded(cfg, toolsAt, ticks, walls, s.done);
    assert Run(cfg, start, steps) == Some(s) && Readings(batches[..0]) == 0 && Flatten(s.done) == results;
    hide Run, Readings, Flatten, AllRecorded;
    for k := 0 to |batches|
      invariant Run(cfg, start, steps) == Some(s) && RegistryOk(s.tools) && s.phase.Between?
      invariant |s.done| == k && s.reports == reports && Flatten(s.done) == results
      invariant AllRecorded(cfg, toolsAt, ticks, walls, s.done)
      invariant n == Readings(batches[..k]) && s.clock <= ticks(n)
    {
      ReadingsStep(batches, k);
      var batch, report;
      ghost var done := s.done;
      batch, report, n, steps, s := RunBatch(cfg, start, steps, s, toolsAt, k, ticks, Readings(batches), walls, n);
      FlattenSnoc(done, batch);
      RecordedSnoc(cfg, toolsAt, ticks, walls, done, batch);
      results := results + batch;
      reports := reports + [report];
    }
    assert batches[..|batches|] == batches;
    PlanRuns.ResultsAnswerCalls(cfg, toolsAt(0), ticks(0), steps);
  }
}
