/** The batch reports of the executor: `wall_time_s`, `sequential_estimate_s` and
    the speedup, on exact times first and then rounded as they are reported
    (src/orchestrator/executor.py, src/orchestrator/manifests.py). */
module Timing {
  import opened OrderedDict
  import opened Manifests
  import opened ToolIndex
  import opened Invocation
  import opened Executor

  predicate During(r: ToolResult, from: real, to: real) {
    from <= r.startedAt <= r.finishedAt <= to
  }

  /** The calls ran one after the other. */
  predicate OneByOne(rs: seq<ToolResult>) {
    forall i, j :: 0 <= i < j < |rs| ==> rs[i].finishedAt <= rs[j].startedAt
  }

  predicate ReportOk(cfg: Config, k: nat, report: BatchReport, rs: seq<ToolResult>) {
    && report.batchIndex == k && report.callCount == |rs|
    && report.sequentialEstimate == TotalDuration(rs)
    && report.wallTime >= 0.0
    && (forall r :: r in rs ==> r.Duration() <= report.wallTime)
    && report.sequentialEstimate <= |rs| as real * report.wallTime
    && (cfg.sequential ==> report.sequentialEstimate <= report.wallTime)
  }

  predicate SlotTimed(slot: Slot, from: real, to: real) {
    match slot
    case Waiting => true
    case Running(_, startedAt) => from <= startedAt <= to
    case Finished(r) => During(r, from, to)
  }

  predicate EndedBefore(earlier: Slot, later: Slot) {
    match later
    case Waiting => true
    case Running(_, startedAt) => earlier.Finished? && earlier.result.finishedAt <= startedAt
    case Finished(r) => earlier.Finished? && earlier.result.finishedAt <= r.startedAt
  }

  predicate PhaseTimed(cfg: Config, phase: Phase, clock: real) {
    phase.Open? ==>
      && phase.openedAt <= clock
      && (forall j :: 0 <= j < |phase.slots| ==> SlotTimed(phase.slots[j], phase.openedAt, clock))
      && (cfg.sequential ==> forall i, j :: 0 <= i < j < |phase.slots| ==> EndedBefore(phase.slots[i], phase.slots[j]))
  }

  predicate TimingOk(cfg: Config, s: State) {
    && PhaseTimed(cfg, s.phase, s.clock)
    && |s.done| == |s.reports|
    && forall k :: 0 <= k < |s.reports| ==> ReportOk(cfg, k, s.reports[k], s.done[k])
  }

  lemma {:induction false} OverlappingTotal(rs: seq<ToolResult>, wall: real)
    requires forall r :: r in rs ==> r.Duration() <= wall
    ensures TotalDuration(rs) <= |rs| as real * wall
  {
    if rs != [] {
      var front := rs[..|rs| - 1];
      OverlappingTotal(front, wall);
      assert |rs| as real * wall == |front| as real * wall + wall;
    }
  }

  lemma {:induction false} OneByOneTotal(rs: seq<ToolResult>, from: real, to: real)
    requires from <= to && OneByOne(rs)
    requires forall r :: r in rs ==> During(r, from, to)
    ensures TotalDuration(rs) <= to - from
  {
    if rs != [] {
      var front, last := rs[..|rs| - 1], rs[|rs| - 1];
      forall r | r in front ensures During(r, from, last.startedAt) {
        var i :| 0 <= i < |front| && front[i] == r;
        assert rs[i].finishedAt <= last.startedAt && rs[i] in rs;
      }
      assert last in rs;
      OneByOneTotal(front, from, last.startedAt);
    }
  }

  lemma ResultsDuring(slots: seq<Slot>, from: real, to: real)
    requires forall j :: 0 <= j < |slots| ==> slots[j].Finished?
    requires forall j :: 0 <= j < |slots| ==> SlotTimed(slots[j], from, to)
    ensures forall r :: r in Results(slots) ==> During(r, from, to) && r.Duration() <= to - from
  {
    var rs := Results(slots);
    forall r | r in rs ensures During(r, from, to) && r.Duration() <= to - from {
      var j :| 0 <= j < |rs| && rs[j] == r;
      assert SlotTimed(slots[j], from, to);
    }
  }

  lemma ResultsOneByOne(slots: seq<Slot>)
    requires forall j :: 0 <= j < |slots| ==> slots[j].Finished?
    requires forall i, j :: 0 <= i < j < |slots| ==> EndedBefore(slots[i], slots[j])
    ensures OneByOne(Results(slots))
  {
    var rs := Results(slots);
    forall i, j | 0 <= i < j < |rs| ensures rs[i].finishedAt <= rs[j].startedAt {
      assert EndedBefore(slots[i], slots[j]);
    }
  }

  lemma ClosingReport(cfg: Config, slots: seq<Slot>, from: real, to: real, k: nat)
    requires PhaseTimed(cfg, Open(slots, from), to)
    requires forall i :: 0 <= i < |slots| ==> slots[i].Finished?
    ensures ReportOk(cfg, k, BatchReport(k, |slots|, to - from, TotalDuration(Results(slots))), Results(slots))
  {
    var rs := Results(slots);
    ResultsDuring(slots, from, to);
    if cfg.sequential { ResultsOneByOne(slots); }
    hide SlotTimed, EndedBefore, OneByOne, Results, TotalDuration;
    OverlappingTotal(rs, to - from);
    if cfg.sequential { OneByOneTotal(rs, from, to); }
  }

  lemma SlotStepTimed(cfg: Config, s: State, step: Step)
    requires TimingOk(cfg, s) && Enabled(cfg, s, step) && (step.Start? || step.Finish?)
    ensures PhaseTimed(cfg, Next(cfg, s, step).phase, s.clock)
  {
    var b, j := |s.done|, step.call;
    var was := s.phase.slots[j];
    assert SlotTimed(was, s.phase.openedAt, s.clock);
    if step.Finish? {
      InvokeMeaning(cfg.batches[b][j], was.tool, cfg.replies(b, j), was.startedAt, s.clock, step.now);
    }
    hide Invoke, ReportOk;
    var slots, slots' := s.phase.slots, Next(cfg, s, step).phase.slots;
    if cfg.sequential {
      forall x, y | 0 <= x < y < |slots'| ensures EndedBefore(slots'[x], slots'[y]) {
        assert EndedBefore(slots[x], slots[y]);
        if y == j && step.Start? { assert SlotTimed(slots[x], s.phase.openedAt, s.clock); }
      }
    }
  }

  lemma TimingPreserved(cfg: Config, s: State, step: Step)
    requires TimingOk(cfg, s) && Enabled(cfg, s, step)
    ensures TimingOk(cfg, Next(cfg, s, step))
  {
    match step {
      case Start(_) => SlotStepTimed(cfg, s, step);
      case Finish(_, _) => SlotStepTimed(cfg, s, step);
      case CloseBatch => ClosingReport(cfg, s.phase.slots, s.phase.openedAt, s.clock, |s.done|);
      case OpenBatch =>
      case Outside(_, clock) =>
        if s.phase.Open? {
          forall j | 0 <= j < |s.phase.slots| ensures SlotTimed(s.phase.slots[j], s.phase.openedAt, clock) {
            assert SlotTimed(s.phase.slots[j], s.phase.openedAt, s.clock);
          }
        }
    }
    hide Invoke, ReportOk;
  }

  lemma {:induction false} RunKeepsTiming(cfg: Config, tools: Tools, clock: real, steps: seq<Step>)
    requires Run(cfg, Initial(tools, clock), steps).Some?
    ensures TimingOk(cfg, Run(cfg, Initial(tools, clock), steps).value)
  {
    if steps != [] {
      hide TimingOk, Next, Enabled;
      var front := steps[..|steps| - 1];
      RunKeepsTiming(cfg, tools, clock, front);
      TimingPreserved(cfg, Run(cfg, Initial(tools, clock), front).value, steps[|steps| - 1]);
    }
  }

  lemma SpeedupBound(cfg: Config, k: nat, report: BatchReport, rs: seq<ToolResult>)
    requires ReportOk(cfg, k, report, rs)
    ensures report.wallTime > 0.0 ==> report.Speedup() <= report.callCount as real
    ensures cfg.sequential ==> report.Speedup() <= 1.0
  {
    if report.wallTime > 0.0 {
      QuotientBound(report.sequentialEstimate, report.wallTime, report.callCount as real);
      if cfg.sequential { QuotientBound(report.sequentialEstimate, report.wallTime, 1.0); }
    }
  }

  lemma QuotientBound(x: real, w: real, n: real)
    requires w > 0.0 && x <= n * w
    ensures x / w <= n
  {
    assert x / w <= (n * w) / w;
    assert (n * w) / w == n;
  }

  /** In every interleaving, no call outlasts its batch and the summed
      estimate is at most call count times wall time, so no batch reports a
      speedup above its number of calls; run sequentially the estimate is at
      most the wall time, so the speedup is at most 1. */
  lemma SpeedupTheorem(cfg: Config, tools: Tools, clock: real, steps: seq<Step>, k: nat)
    requires Run(cfg, Initial(tools, clock), steps).Some?
    requires k < |Run(cfg, Initial(tools, clock), steps).value.reports|
    ensures var s := Run(cfg, Initial(tools, clock), steps).value;
            && k < |s.done| && ReportOk(cfg, k, s.reports[k], s.done[k])
            && (s.reports[k].wallTime <= 0.0 ==> s.reports[k].Speedup() == 1.0)
            && (s.reports[k].wallTime > 0.0 ==> s.reports[k].Speedup() <= s.reports[k].callCount as real)
            && (cfg.sequential ==> s.reports[k].Speedup() <= 1.0)
  {
    RunKeepsTiming(cfg, tools, clock, steps);
    hide Run, ReportOk, PhaseTimed;
    var s := Run(cfg, Initial(tools, clock), steps).value;
    SpeedupBound(cfg, k, s.reports[k], s.done[k]);
  }

  // ----- The numbers as reported: rounded half to even

  function RoundHalfEven(x: real): int {
    var f := x.Floor;
    var rest := x - f as real;
    if rest < 0.5 || (rest == 0.5 && f % 2 == 0) then f else f + 1
  }

  lemma RoundsUpTo(x: real, n: int)
    ensures RoundHalfEven(x) <= n <==> x < n as real + 0.5 || (x == n as real + 0.5 && n % 2 == 0)
  {
    if x.Floor < n {
      assert x.Floor as real + 1.0 <= n as real;
    } else if x.Floor > n {
      assert x.Floor as real >= n as real + 1.0;
    }
  }

  lemma RoundMonotone(x: real, y: real)
    requires x <= y
    ensures RoundHalfEven(x) <= RoundHalfEven(y)
  {
    RoundsUpTo(x, RoundHalfEven(y));
    RoundsUpTo(y, RoundHalfEven(y));
  }

  /** To four decimals, as the report stores its times. */
  function Round4(x: real): real {
    RoundHalfEven(x * 10000.0) as real / 10000.0
  }

  /** To two decimals, as it shows its speedup. */
  function Round2(x: real): real {
    RoundHalfEven(x * 100.0) as real / 100.0
  }

  function Rounded(report: BatchReport): BatchReport {
    report.(wallTime := Round4(report.wallTime), sequentialEstimate := Round4(report.sequentialEstimate))
  }

  function ShownSpeedup(report: BatchReport): real {
    if report.wallTime <= 0.0 then 1.0 else Round2(report.Speedup())
  }

  lemma QuotientCompare(x: real, w: real, c: real)
    requires w > 0.0
    ensures x / w <= c <==> x <= c * w
  {
    if x <= c * w { QuotientBound(x, w, c); }
    if x / w <= c { ProductBound(x / w, c, w); assert (x / w) * w == x; }
  }

  lemma ProductBound(a: real, b: real, w: real)
    requires a <= b && w >= 0.0
    ensures a * w <= b * w
  {
  }

  lemma RoundsUpToEven(x: real, n: int)
    requires n % 2 == 0
    ensures RoundHalfEven(x) <= n <==> x <= n as real + 0.5
  {
    RoundsUpTo(x, n);
  }

  lemma Hundredths(m: int, n: nat)
    ensures m as real / 100.0 <= n as real <==> m <= 100 * n
  {
  }

  lemma TwiceIsEven(m: int)
    ensures (2 * m) % 2 == 0
  {
  }

  lemma Round2AtMost(q: real, n: nat)
    ensures Round2(q) <= n as real <==> q <= n as real + 0.005
  {
    TwiceIsEven(50 * n);
    RoundsUpToEven(q * 100.0, 2 * (50 * n));
    Hundredths(RoundHalfEven(q * 100.0), n);
    hide RoundHalfEven;
  }

  lemma ShownAtMost(e: real, w: real, n: nat)
    requires w > 0.0
    ensures Round2(e / w) <= n as real <==> e <= (n as real + 0.005) * w
  {
    hide Round2;
    Round2AtMost(e / w, n);
    QuotientCompare(e, w, n as real + 0.005);
  }

  lemma AtMostWall(cfg: Config, k: nat, report: BatchReport, rs: seq<ToolResult>)
    requires ReportOk(cfg, k, report, rs) && (cfg.sequential || report.callCount <= 1)
    ensures report.sequentialEstimate <= report.wallTime
  {
    if report.callCount == 1 { assert |rs| as real * report.wallTime == report.wallTime; }
    if report.callCount == 0 { assert |rs| as real * report.wallTime == 0.0; }
  }

  lemma Round4Monotone(x: real, y: real)
    requires x <= y
    ensures Round4(x) <= Round4(y)
  {
    RoundMonotone(x * 10000.0, y * 10000.0);
  }

  /** The rounded report: a sequential batch, and one of a single call, still
      never shows a speedup above 1; any other shows at most its call count
      exactly when its rounded times differ by at most that factor, or by the
      0.005 more that the display rounds away. */
  lemma RoundedSpeedup(cfg: Config, k: nat, report: BatchReport, rs: seq<ToolResult>)
    requires ReportOk(cfg, k, report, rs)
    ensures var r := Rounded(report);
            && (r.wallTime <= 0.0 ==> ShownSpeedup(r) == 1.0)
            && (cfg.sequential || r.callCount <= 1 ==> ShownSpeedup(r) <= 1.0)
            && (r.wallTime > 0.0 ==>
                  (ShownSpeedup(r) <= r.callCount as real <==> r.sequentialEstimate <= (r.callCount as real + 0.005) * r.wallTime))
  {
    hide Round4, Round2, ReportOk;
    var r := Rounded(report);
    if r.wallTime > 0.0 {
      ShownAtMost(r.sequentialEstimate, r.wallTime, r.callCount);
      ShownAtMost(r.sequentialEstimate, r.wallTime, 1);
      if cfg.sequential || r.callCount <= 1 {
        AtMostWall(cfg, k, report, rs);
        Round4Monotone(report.sequentialEstimate, report.wallTime);
        ProductBound(1.0, 1.0 + 0.005, r.wallTime);
      }
    }
  }

  /** Both calls of the only batch are in flight since time 0. */
  predicate BothRunning(cfg: Config, s: State) {
    && |cfg.batches| == 1 && |cfg.batches[0]| == 2 && s.done == [] && s.reports == []
    && s.phase.Open? && s.phase.openedAt == 0.0 && s.clock == 0.0 && |s.phase.slots| == 2
    && s.phase.slots[0].Running? && s.phase.slots[0].startedAt == 0.0
    && s.phase.slots[1].Running? && s.phase.slots[1].startedAt == 0.0
  }

  lemma StartBoth(cfg: Config, tools: Tools) returns (steps: seq<Step>, s: State)
    requires |cfg.batches| == 1 && |cfg.batches[0]| == 2 && !cfg.sequential
    ensures Run(cfg, Initial(tools, 0.0), steps) == Some(s) && BothRunning(cfg, s) && s.tools == tools
  {
    var start := Initial(tools, 0.0);
    var s1 := Next(cfg, start, OpenBatch);
    RunOne(cfg, start, [], start, OpenBatch);
    hide Run;
    var s2 := Next(cfg, s1, Start(0));
    RunOne(cfg, start, [] + [OpenBatch], s1, Start(0));
    s := Next(cfg, s2, Start(1));
    RunOne(cfg, start, [] + [OpenBatch] + [Start(0)], s2, Start(1));
    steps := [] + [OpenBatch] + [Start(0)] + [Start(1)];
  }

  /** Both calls have ended, after the given time. */
  predicate BothEnded(cfg: Config, s: State, time: real) {
    && |cfg.batches| == 1 && |cfg.batches[0]| == 2 && s.done == [] && s.reports == []
    && s.phase.Open? && s.phase.openedAt == 0.0 && s.clock == time && |s.phase.slots| == 2
    && s.phase.slots[0].Finished? && s.phase.slots[0].result.Duration() == time
    && s.phase.slots[1].Finished? && s.phase.slots[1].result.Duration() == time
  }

  lemma EndBoth(cfg: Config, start: State, steps: seq<Step>, s: State, time: real) returns (more: seq<Step>, t: State)
    requires Run(cfg, start, steps) == Some(s) && BothRunning(cfg, s) && RegistryOk(s.tools) && time >= 0.0
    ensures Run(cfg, start, more) == Some(t) && BothEnded(cfg, t, time)
  {
    hide Run, Invoke, RegistryOk;
    var later := Outside(s.tools, time);
    var s1 := Next(cfg, s, later);
    RunOne(cfg, start, steps, s, later);
    var s2 := Next(cfg, s1, Finish(0, 0.0));
    RunOne(cfg, start, steps + [later], s1, Finish(0, 0.0));
    t := Next(cfg, s2, Finish(1, 0.0));
    RunOne(cfg, start, steps + [later] + [Finish(0, 0.0)], s2, Finish(1, 0.0));
    more := steps + [later] + [Finish(0, 0.0)] + [Finish(1, 0.0)];
    InvokeMeaning(cfg.batches[0][0], s.phase.slots[0].tool, cfg.replies(0, 0), 0.0, time, 0.0);
    InvokeMeaning(cfg.batches[0][1], s.phase.slots[1].tool, cfg.replies(0, 1), 0.0, time, 0.0);
  }

  /** Two calls of 0.14 ms at once are shown with a speedup of 3. */
  lemma RoundingCanExceed(tools: Tools, call: ToolCall, replies: (nat, nat) -> Reply) returns (cfg: Config, steps: seq<Step>)
    requires RegistryOk(tools)
    ensures cfg == Config([[call, call]], false, replies)
    ensures var end := Run(cfg, Initial(tools, 0.0), steps);
            && end.Some? && Complete(cfg, end.value) && |end.value.reports| == 1
            && end.value.reports[0].callCount == 2 && ShownSpeedup(Rounded(end.value.reports[0])) == 3.0
  {
    cfg := Config([[call, call]], false, replies);
    var s, t;
    steps, s := StartBoth(cfg, tools);
    steps, t := EndBoth(cfg, Initial(tools, 0.0), steps, s, 0.00014);
    hide Run, BothRunning, ShownSpeedup, Rounded;
    RunOne(cfg, Initial(tools, 0.0), steps, t, CloseBatch);
    steps := steps + [CloseBatch];
    var rs := Results(t.phase.slots);
    TotalOfTwo(rs);
    ShowsThree(Next(cfg, t, CloseBatch).reports[0]);
  }

  lemma TotalOfTwo(rs: seq<ToolResult>)
    requires |rs| == 2
    ensures TotalDuration(rs) == rs[0].Duration() + rs[1].Duration()
  {
    assert rs[..1][..0] == [] && rs[..1][0] == rs[0];
    assert TotalDuration(rs[..1]) == TotalDuration(rs[..1][..0]) + rs[0].Duration();
  }

  lemma ShowsThree(report: BatchReport)
    requires report.wallTime == 0.00014 && report.sequentialEstimate == 0.00028
    ensures ShownSpeedup(Rounded(report)) == 3.0
  {
    assert RoundHalfEven(1.4) == 1 && RoundHalfEven(2.8) == 3 && RoundHalfEven(300.0) == 300;
  }
}
