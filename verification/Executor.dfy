/** `run` / `_run_batch` (src/orchestrator/executor.py) as a barrier protocol:
    every interleaving of starts and finishes inside a batch, with the rest of
    the process free to change the registry and let time pass in between. */
module Executor {
  import opened Seqs
  import opened OrderedDict
  import opened Manifests
  import opened ToolIndex
  import opened Invocation

  /** `replies(b, j)` is what the tool of call j of batch b will do. */
  datatype Config = Config(batches: seq<seq<ToolCall>>, sequential: bool, replies: (nat, nat) -> Reply)

  datatype Slot = Waiting | Running(tool: Option<RegisteredTool>, startedAt: real) | Finished(result: ToolResult)

  datatype Event = Started(batch: nat, call: nat) | Ended(batch: nat, call: nat)

  datatype Phase = Between | Open(slots: seq<Slot>, openedAt: real)

  datatype State = State(tools: Tools, clock: real, done: seq<seq<ToolResult>>, reports: seq<BatchReport>, phase: Phase, trace: seq<Event>)

  datatype Step = OpenBatch | Start(call: nat) | Finish(call: nat, now: real) | CloseBatch | Outside(tools: Tools, clock: real)

  function Initial(tools: Tools, clock: real): State {
    State(tools, clock, [], [], Between, [])
  }

  function TotalDuration(rs: seq<ToolResult>): real {
    if rs == [] then 0.0 else TotalDuration(rs[..|rs| - 1]) + rs[|rs| - 1].Duration()
  }

  function Results(slots: seq<Slot>): seq<ToolResult>
    requires forall i :: 0 <= i < |slots| ==> slots[i].Finished?
  {
    seq(|slots|, i requires 0 <= i < |slots| => slots[i].result)
  }

  predicate Enabled(cfg: Config, s: State, step: Step) {
    var b := |s.done|;
    match step
    case OpenBatch => s.phase.Between? && b < |cfg.batches|
    case Start(j) =>
      && s.phase.Open? && b < |cfg.batches| && j < |s.phase.slots| && j < |cfg.batches[b]|
      && s.phase.slots[j].Waiting?
      && (cfg.sequential ==> forall i :: 0 <= i < j ==> s.phase.slots[i].Finished?)
    case Finish(j, now) =>
      && s.phase.Open? && b < |cfg.batches| && j < |s.phase.slots| && j < |cfg.batches[b]|
      && s.phase.slots[j].Running?
    case CloseBatch => s.phase.Open? && forall i :: 0 <= i < |s.phase.slots| ==> s.phase.slots[i].Finished?
    case Outside(tools, clock) => RegistryOk(tools) && clock >= s.clock
  }

  /** The tool is looked up when its call starts; results are collected in call
      order when the batch closes. */
  function Next(cfg: Config, s: State, step: Step): State
    requires Enabled(cfg, s, step)
  {
    var b := |s.done|;
    match step
    case OpenBatch => s.(phase := Open(seq(|cfg.batches[b]|, i => Waiting), s.clock))
    case Start(j) =>
      var slot := Running(s.tools.Get(cfg.batches[b][j].tool), s.clock);
      s.(phase := s.phase.(slots := s.phase.slots[j := slot]), trace := s.trace + [Started(b, j)])
    case Finish(j, now) =>
      var was := s.phase.slots[j];
      var r := Invoke(cfg.batches[b][j], was.tool, cfg.replies(b, j), was.startedAt, s.clock, now);
      s.(phase := s.phase.(slots := s.phase.slots[j := Finished(r)]), trace := s.trace + [Ended(b, j)])
    case CloseBatch =>
      var rs := Results(s.phase.slots);
      s.(done := s.done + [rs], phase := Between,
         reports := s.reports + [BatchReport(b, |rs|, s.clock - s.phase.openedAt, TotalDuration(rs))])
    case Outside(tools, clock) => s.(tools := tools, clock := clock)
  }

  /** The state after a sequence of steps, if all of them are legal. */
  function Run(cfg: Config, s: State, steps: seq<Step>): Option<State> {
    if steps == [] then Some(s) else
      var before := Run(cfg, s, steps[..|steps| - 1]);
      var step := steps[|steps| - 1];
      if before.Some? && Enabled(cfg, before.value, step) then Some(Next(cfg, before.value, step)) else None
  }

  lemma RunOne(cfg: Config, start: State, steps: seq<Step>, s: State, step: Step)
    requires Run(cfg, start, steps) == Some(s) && Enabled(cfg, s, step)
    ensures Run(cfg, start, steps + [step]) == Some(Next(cfg, s, step))
  {
    assert (steps + [step])[..|steps|] == steps;
    hide Next, Enabled;
  }

  predicate Complete(cfg: Config, s: State) {
    s.phase.Between? && |s.done| == |cfg.batches|
  }

  /** What `run` returns. */
  function AllResults(s: State): seq<ToolResult> {
    Flatten(s.done)
  }

  // ----- Invariant: shape

  ghost predicate ShapeOk(cfg: Config, s: State) {
    && RegistryOk(s.tools)
    && |s.done| == |s.reports| <= |cfg.batches|
    && (forall k :: 0 <= k < |s.done| ==> |s.done[k]| == |cfg.batches[k]|)
    && (s.phase.Open? ==> |s.done| < |cfg.batches| && |s.phase.slots| == |cfg.batches[|s.done|]|)
  }

  lemma ShapePreserved(cfg: Config, s: State, step: Step)
    requires ShapeOk(cfg, s) && Enabled(cfg, s, step)
    ensures ShapeOk(cfg, Next(cfg, s, step))
  {
    hide Invoke;
  }

  // ----- Invariant: the trace

  predicate HasStarted(cfg: Config, s: State, k: nat, j: nat) {
    && k < |cfg.batches| && j < |cfg.batches[k]|
    && (k < |s.done| || (k == |s.done| && s.phase.Open? && j < |s.phase.slots| && !s.phase.slots[j].Waiting?))
  }

  predicate HasEnded(cfg: Config, s: State, k: nat, j: nat) {
    && k < |cfg.batches| && j < |cfg.batches[k]|
    && (k < |s.done| || (k == |s.done| && s.phase.Open? && j < |s.phase.slots| && s.phase.slots[j].Finished?))
  }

  ghost predicate TraceMatches(cfg: Config, s: State) {
    && (forall k, j :: Started(k, j) in s.trace <==> HasStarted(cfg, s, k, j))
    && (forall k, j :: Ended(k, j) in s.trace <==> HasEnded(cfg, s, k, j))
    && Distinct(s.trace)
  }

  /** Event e may come right after `past`: a call starts only after every call
      of every earlier batch has ended (and, sequentially, every earlier call of
      its own batch), and ends only after it started. */
  ghost predicate MayFollow(cfg: Config, past: seq<Event>, e: Event) {
    match e
    case Started(k, j) =>
      && (forall k2: nat, j2: nat :: k2 < k && k2 < |cfg.batches| && j2 < |cfg.batches[k2]| ==> Ended(k2, j2) in past)
      && (cfg.sequential ==> forall i: nat :: i < j ==> Ended(k, i) in past)
    case Ended(k, j) => Started(k, j) in past
  }

  ghost predicate TraceOrdered(cfg: Config, trace: seq<Event>) {
    forall p :: 0 <= p < |trace| ==> MayFollow(cfg, trace[..p], trace[p])
  }

  lemma OrderedSnoc(cfg: Config, trace: seq<Event>, e: Event)
    requires TraceOrdered(cfg, trace) && MayFollow(cfg, trace, e)
    ensures TraceOrdered(cfg, trace + [e])
  {
    var t := trace + [e];
    forall p | 0 <= p < |t| ensures MayFollow(cfg, t[..p], t[p]) {
      assert t[..p] == trace[..p];
      if p == |trace| { assert trace[..p] == trace; }
    }
  }

  ghost predicate TraceOk(cfg: Config, s: State) {
    TraceMatches(cfg, s) && TraceOrdered(cfg, s.trace)
  }

  lemma TracePreserved(cfg: Config, s: State, step: Step)
    requires ShapeOk(cfg, s) && TraceOk(cfg, s) && Enabled(cfg, s, step)
    ensures TraceOk(cfg, Next(cfg, s, step))
  {
    var b := |s.done|;
    match step {
      case Start(j) =>
        assert MayFollow(cfg, s.trace, Started(b, j));
        OrderedSnoc(cfg, s.trace, Started(b, j));
        SlotEvent(cfg, s, step, j);
      case Finish(j, now) =>
        assert HasStarted(cfg, s, b, j);
        OrderedSnoc(cfg, s.trace, Ended(b, j));
        SlotEvent(cfg, s, step, j);
      case OpenBatch =>
      case CloseBatch =>
      case Outside(_, _) =>
    }
  }

  lemma SlotEvent(cfg: Config, s: State, step: Step, j: nat)
    requires ShapeOk(cfg, s) && TraceMatches(cfg, s) && Enabled(cfg, s, step)
    requires step == Start(j) || (step.Finish? && step.call == j)
    ensures TraceMatches(cfg, Next(cfg, s, step))
  {
    hide Invoke;
    var b, t := |s.done|, Next(cfg, s, step);
    var e := if step.Start? then Started(b, j) else Ended(b, j);
    assert t.trace == s.trace + [e] && e !in s.trace;
    assert forall x :: x in t.trace <==> x in s.trace || x == e;
  }

  // ----- Runs

  ghost predicate Inv(cfg: Config, s: State) {
    ShapeOk(cfg, s) && TraceOk(cfg, s)
  }

  lemma {:induction false} RunKeepsInv(cfg: Config, tools: Tools, clock: real, steps: seq<Step>)
    requires RegistryOk(tools) && Run(cfg, Initial(tools, clock), steps).Some?
    ensures Inv(cfg, Run(cfg, Initial(tools, clock), steps).value)
  {
    if steps != [] {
      hide ShapeOk, TraceOk, Next, Enabled;
      var front := steps[..|steps| - 1];
      RunKeepsInv(cfg, tools, clock, front);
      var s := Run(cfg, Initial(tools, clock), front).value;
      ShapePreserved(cfg, s, steps[|steps| - 1]);
      TracePreserved(cfg, s, steps[|steps| - 1]);
    }
  }

  // ----- Safety

  /** Barrier safety, at any moment of any run: if a call has started, every
      call of every earlier batch has already ended, and no event ever
      repeats. */
  lemma BarrierSafety(cfg: Config, tools: Tools, clock: real, steps: seq<Step>, p: nat, k: nat, j: nat, k2: nat, j2: nat)
    requires RegistryOk(tools) && Run(cfg, Initial(tools, clock), steps).Some?
    requires var trace := Run(cfg, Initial(tools, clock), steps).value.trace;
             p < |trace| && trace[p] == Started(k, j)
    requires k2 < k && k2 < |cfg.batches| && j2 < |cfg.batches[k2]|
    ensures var trace := Run(cfg, Initial(tools, clock), steps).value.trace;
            Distinct(trace) && exists q :: 0 <= q < p && trace[q] == Ended(k2, j2)
  {
    RunKeepsInv(cfg, tools, clock, steps);
    var trace := Run(cfg, Initial(tools, clock), steps).value.trace;
    hide Run, ShapeOk;
    assert MayFollow(cfg, trace[..p], trace[p]);
    assert Ended(k2, j2) in trace[..p];
    var q :| 0 <= q < p && trace[..p][q] == Ended(k2, j2);
    assert trace[q] == Ended(k2, j2);
  }

  /** In a completed run every call has started and ended, each exactly once. */
  lemma EveryCallOnce(cfg: Config, tools: Tools, clock: real, steps: seq<Step>)
    requires RegistryOk(tools) && Run(cfg, Initial(tools, clock), steps).Some?
    requires Complete(cfg, Run(cfg, Initial(tools, clock), steps).value)
    ensures var trace := Run(cfg, Initial(tools, clock), steps).value.trace;
            && Distinct(trace)
            && (forall k: nat, j: nat :: k < |cfg.batches| && j < |cfg.batches[k]| ==> Started(k, j) in trace && Ended(k, j) in trace)
            && (forall e :: e in trace ==> e.batch < |cfg.batches| && e.call < |cfg.batches[e.batch]|)
  {
    RunKeepsInv(cfg, tools, clock, steps);
    var s := Run(cfg, Initial(tools, clock), steps).value;
    hide Run, ShapeOk, TraceOrdered;
    forall e | e in s.trace ensures e.batch < |cfg.batches| && e.call < |cfg.batches[e.batch]| {
      match e {
        case Started(k, j) => assert HasStarted(cfg, s, k, j);
        case Ended(k, j) => assert HasEnded(cfg, s, k, j);
      }
    }
    forall k: nat, j: nat | k < |cfg.batches| && j < |cfg.batches[k]| ensures Started(k, j) in s.trace && Ended(k, j) in s.trace {
      assert HasStarted(cfg, s, k, j) && HasEnded(cfg, s, k, j);
    }
  }

  // ----- Results

  /** Step n started call j of batch k, and `tool` was bound to the call's name
      at that moment. */
  ghost predicate StartedAt(cfg: Config, start: State, steps: seq<Step>, n: nat, k: nat, j: nat, tool: Option<RegisteredTool>) {
    && k < |cfg.batches| && j < |cfg.batches[k]| && n < |steps| && steps[n] == Start(j)
    && var s := Run(cfg, start, steps[..n]);
       s.Some? && |s.value.done| == k && s.value.tools.Get(cfg.batches[k][j].tool) == tool
  }

  ghost predicate LookedUp(cfg: Config, start: State, steps: seq<Step>, k: nat, j: nat, tool: Option<RegisteredTool>) {
    exists n: nat :: StartedAt(cfg, start, steps, n, k, j, tool)
  }

  /** r is the record of call j of batch k: what that call's reply makes of the
      tool that was bound when the call started, timestamp included if the tool
      supplied it. */
  ghost predicate Answers(cfg: Config, start: State, steps: seq<Step>, k: nat, j: nat, r: ToolResult) {
    && k < |cfg.batches| && j < |cfg.batches[k]|
    && exists tool :: LookedUp(cfg, start, steps, k, j, tool)
                      && Fills(cfg.batches[k][j], tool, cfg.replies(k, j), r)
  }

  ghost predicate ContentsOk(cfg: Config, start: State, steps: seq<Step>, s: State) {
    && (forall k, j :: 0 <= k < |s.done| && 0 <= j < |s.done[k]| ==> Answers(cfg, start, steps, k, j, s.done[k][j]))
    && (s.phase.Open? ==> forall j :: 0 <= j < |s.phase.slots| ==>
          && (s.phase.slots[j].Running? ==> LookedUp(cfg, start, steps, |s.done|, j, s.phase.slots[j].tool))
          && (s.phase.slots[j].Finished? ==> Answers(cfg, start, steps, |s.done|, j, s.phase.slots[j].result)))
  }

  lemma LookedUpLater(cfg: Config, start: State, steps: seq<Step>, step: Step, k: nat, j: nat, tool: Option<RegisteredTool>)
    requires LookedUp(cfg, start, steps, k, j, tool)
    ensures LookedUp(cfg, start, steps + [step], k, j, tool)
  {
    hide Run;
    var n: nat :| StartedAt(cfg, start, steps, n, k, j, tool);
    assert (steps + [step])[..n] == steps[..n];
    assert StartedAt(cfg, start, steps + [step], n, k, j, tool);
  }

  lemma AnswersLater(cfg: Config, start: State, steps: seq<Step>, step: Step, k: nat, j: nat, r: ToolResult)
    requires Answers(cfg, start, steps, k, j, r)
    ensures Answers(cfg, start, steps + [step], k, j, r)
  {
    hide LookedUp, Fills;
    var tool :| LookedUp(cfg, start, steps, k, j, tool) && Fills(cfg.batches[k][j], tool, cfg.replies(k, j), r);
    LookedUpLater(cfg, start, steps, step, k, j, tool);
  }

  lemma ContentsLater(cfg: Config, start: State, steps: seq<Step>, step: Step, s: State)
    requires ContentsOk(cfg, start, steps, s)
    ensures ContentsOk(cfg, start, steps + [step], s)
  {
    hide LookedUp, Answers;
    forall k: nat, j: nat | k < |s.done| && j < |s.done[k]| ensures Answers(cfg, start, steps + [step], k, j, s.done[k][j]) {
      AnswersLater(cfg, start, steps, step, k, j, s.done[k][j]);
    }
    if s.phase.Open? {
      forall j: nat | j < |s.phase.slots|
        ensures s.phase.slots[j].Running? ==> LookedUp(cfg, start, steps + [step], |s.done|, j, s.phase.slots[j].tool)
        ensures s.phase.slots[j].Finished? ==> Answers(cfg, start, steps + [step], |s.done|, j, s.phase.slots[j].result)
      {
        match s.phase.slots[j] {
          case Waiting =>
          case Running(tool, _) => LookedUpLater(cfg, start, steps, step, |s.done|, j, tool);
          case Finished(r) => AnswersLater(cfg, start, steps, step, |s.done|, j, r);
        }
      }
    }
  }

  lemma LooksUp(cfg: Config, start: State, steps: seq<Step>, s: State, j: nat)
    requires Run(cfg, start, steps) == Some(s) && Enabled(cfg, s, Start(j))
    ensures LookedUp(cfg, start, steps + [Start(j)], |s.done|, j, s.tools.Get(cfg.batches[|s.done|][j].tool))
  {
    hide Run;
    assert (steps + [Start(j)])[..|steps|] == steps;
    assert StartedAt(cfg, start, steps + [Start(j)], |steps|, |s.done|, j, s.tools.Get(cfg.batches[|s.done|][j].tool));
  }

  lemma ContentsPreserved(cfg: Config, start: State, steps: seq<Step>, s: State, step: Step)
    requires Run(cfg, start, steps) == Some(s) && ShapeOk(cfg, s) && Enabled(cfg, s, step)
    requires ContentsOk(cfg, start, steps, s)
    ensures ContentsOk(cfg, start, steps + [step], Next(cfg, s, step))
  {
    hide Run;
    var b := |s.done|;
    ContentsLater(cfg, start, steps, step, s);
    match step {
      case Start(j) => LooksUp(cfg, start, steps, s, j);
      case Finish(j, now) =>
        var was := s.phase.slots[j];
        InvokeMeaning(cfg.batches[b][j], was.tool, cfg.replies(b, j), was.startedAt, s.clock, now);
      case _ =>
    }
    hide Invoke, LookedUp, StartedAt, Fills;
  }

  lemma {:induction false} RunKeepsContents(cfg: Config, tools: Tools, clock: real, steps: seq<Step>)
    requires RegistryOk(tools) && Run(cfg, Initial(tools, clock), steps).Some?
    ensures ContentsOk(cfg, Initial(tools, clock), steps, Run(cfg, Initial(tools, clock), steps).value)
  {
    if steps != [] {
      var front, step := steps[..|steps| - 1], steps[|steps| - 1];
      RunKeepsContents(cfg, tools, clock, front);
      RunKeepsInv(cfg, tools, clock, front);
      assert steps == front + [step];
      hide ContentsOk, Next, Enabled, TraceOk;
      ContentsPreserved(cfg, Initial(tools, clock), front, Run(cfg, Initial(tools, clock), front).value, step);
    }
  }

  /** The results of a completed run, batch by batch and in call order: one per
      call, for that call, with a content that depends only on that call's own
      reply and on the tool bound to its name when it started. */
  lemma ResultsMeaning(cfg: Config, tools: Tools, clock: real, steps: seq<Step>)
    requires RegistryOk(tools) && Run(cfg, Initial(tools, clock), steps).Some?
    requires Complete(cfg, Run(cfg, Initial(tools, clock), steps).value)
    ensures var s := Run(cfg, Initial(tools, clock), steps).value;
            && |s.done| == |cfg.batches| == |s.reports|
            && (forall k :: 0 <= k < |s.done| ==> |s.done[k]| == |cfg.batches[k]|)
            && (forall k, j :: 0 <= k < |s.done| && 0 <= j < |s.done[k]| ==> Answers(cfg, Initial(tools, clock), steps, k, j, s.done[k][j]))
  {
    RunKeepsInv(cfg, tools, clock, steps);
    RunKeepsContents(cfg, tools, clock, steps);
    hide Run, Answers, TraceOk;
  }

  lemma {:induction false} RunPrefix(cfg: Config, start: State, steps: seq<Step>, n: nat)
    requires n <= |steps| && Run(cfg, start, steps).Some?
    ensures Run(cfg, start, steps[..n]).Some?
    ensures Run(cfg, start, steps[..n]).value.trace <= Run(cfg, start, steps).value.trace
  {
    if n == |steps| {
      assert steps[..n] == steps;
    } else {
      var front := steps[..|steps| - 1];
      assert front[..n] == steps[..n];
      RunPrefix(cfg, start, front, n);
      hide Invoke;
    }
  }

  lemma StartIsTraced(cfg: Config, start: State, steps: seq<Step>, n: nat, k: nat, j: nat, tool: Option<RegisteredTool>)
    requires Run(cfg, start, steps).Some? && StartedAt(cfg, start, steps, n, k, j, tool)
    ensures var before := Run(cfg, start, steps[..n]).value.trace;
            before + [Started(k, j)] <= Run(cfg, start, steps).value.trace
  {
    RunPrefix(cfg, start, steps, n + 1);
    assert steps[..n + 1][..n] == steps[..n];
  }

  lemma TwoStartsShow(cfg: Config, start: State, steps: seq<Step>, k: nat, j: nat,
                      n1: nat, tool1: Option<RegisteredTool>, n2: nat, tool2: Option<RegisteredTool>)
    requires Run(cfg, start, steps).Some? && n1 < n2
    requires StartedAt(cfg, start, steps, n1, k, j, tool1) && StartedAt(cfg, start, steps, n2, k, j, tool2)
    ensures !Distinct(Run(cfg, start, steps).value.trace)
  {
    var early := steps[..n2];
    RunPrefix(cfg, start, steps, n2);
    assert early[..n1] == steps[..n1];
    StartIsTraced(cfg, start, early, n1, k, j, tool1);
    StartIsTraced(cfg, start, steps, n2, k, j, tool2);
    hide Run;
    var trace, before := Run(cfg, start, steps).value.trace, Run(cfg, start, early).value.trace;
    var i := |Run(cfg, start, early[..n1]).value.trace|;
    assert i < |before| && before[i] == Started(k, j);
    assert trace[i] == before[i] && trace[|before|] == Started(k, j);
  }

  /** A call starts once, so one tool is looked up for it. */
  lemma StartsOnce(cfg: Config, tools: Tools, clock: real, steps: seq<Step>, k: nat, j: nat,
                   n1: nat, tool1: Option<RegisteredTool>, n2: nat, tool2: Option<RegisteredTool>)
    requires RegistryOk(tools) && Run(cfg, Initial(tools, clock), steps).Some?
    requires StartedAt(cfg, Initial(tools, clock), steps, n1, k, j, tool1)
    requires StartedAt(cfg, Initial(tools, clock), steps, n2, k, j, tool2)
    ensures n1 == n2 && tool1 == tool2
  {
    RunKeepsInv(cfg, tools, clock, steps);
    hide Run, ShapeOk, TraceOrdered, Distinct;
    if n1 < n2 { TwoStartsShow(cfg, Initial(tools, clock), steps, k, j, n1, tool1, n2, tool2); }
    if n2 < n1 { TwoStartsShow(cfg, Initial(tools, clock), steps, k, j, n2, tool2, n1, tool1); }
  }

  /** So a record is fixed by the one moment at which its call started. */
  lemma RecordTheorem(cfg: Config, tools: Tools, clock: real, steps: seq<Step>, n: nat, k: nat, j: nat, tool: Option<RegisteredTool>)
    requires RegistryOk(tools) && Run(cfg, Initial(tools, clock), steps).Some?
    requires Complete(cfg, Run(cfg, Initial(tools, clock), steps).value)
    requires StartedAt(cfg, Initial(tools, clock), steps, n, k, j, tool)
    ensures var s := Run(cfg, Initial(tools, clock), steps).value;
            k < |s.done| && j < |s.done[k]| && Fills(cfg.batches[k][j], tool, cfg.replies(k, j), s.done[k][j])
  {
    ResultsMeaning(cfg, tools, clock, steps);
    hide Run, Fills, StartedAt;
    var start := Initial(tools, clock);
    var s := Run(cfg, start, steps).value;
    assert k < |cfg.batches| && j < |cfg.batches[k]| by { StartedCallExists(cfg, start, steps, n, k, j, tool); }
    assert Answers(cfg, start, steps, k, j, s.done[k][j]);
    var used :| LookedUp(cfg, start, steps, k, j, used) && Fills(cfg.batches[k][j], used, cfg.replies(k, j), s.done[k][j]);
    var m: nat :| StartedAt(cfg, start, steps, m, k, j, used);
    StartsOnce(cfg, tools, clock, steps, k, j, n, tool, m, used);
  }

  lemma StartedCallExists(cfg: Config, start: State, steps: seq<Step>, n: nat, k: nat, j: nat, tool: Option<RegisteredTool>)
    requires StartedAt(cfg, start, steps, n, k, j, tool)
    ensures k < |cfg.batches| && j < |cfg.batches[k]|
  {
  }

  /** In every state of the run this is what the registry binds to the name. */
  ghost predicate BoundThroughout(cfg: Config, start: State, steps: seq<Step>, name: string, tool: Option<RegisteredTool>) {
    forall n: nat :: n <= |steps| && Run(cfg, start, steps[..n]).Some? ==> Run(cfg, start, steps[..n]).value.tools.Get(name) == tool
  }

  /** A call whose tool stays as it is gets the record its reply makes of that
      tool, whatever happens to all other tools meanwhile. */
  lemma SteadyTool(cfg: Config, tools: Tools, clock: real, steps: seq<Step>, k: nat, j: nat, tool: Option<RegisteredTool>)
    requires RegistryOk(tools) && Run(cfg, Initial(tools, clock), steps).Some?
    requires Complete(cfg, Run(cfg, Initial(tools, clock), steps).value)
    requires k < |cfg.batches| && j < |cfg.batches[k]|
    requires BoundThroughout(cfg, Initial(tools, clock), steps, cfg.batches[k][j].tool, tool)
    ensures var s := Run(cfg, Initial(tools, clock), steps).value;
            && k < |s.done| && j < |s.done[k]|
            && Fills(cfg.batches[k][j], tool, cfg.replies(k, j), s.done[k][j])
  {
    ResultsMeaning(cfg, tools, clock, steps);
    hide Run, Fills;
    var start := Initial(tools, clock);
    var s := Run(cfg, start, steps).value;
    assert Answers(cfg, start, steps, k, j, s.done[k][j]);
    var used :| LookedUp(cfg, start, steps, k, j, used) && Fills(cfg.batches[k][j], used, cfg.replies(k, j), s.done[k][j]);
    var n: nat :| StartedAt(cfg, start, steps, n, k, j, used);
    assert Run(cfg, start, steps[..n]).value.tools.Get(cfg.batches[k][j].tool) == tool;
  }

  /** Schedule independence and isolation: any two completed runs over the same
      calls, interleaved or sequential, agree on every call whose reply and whose
      own tool are the same in both, whatever the other calls do and whatever
      else is registered or unregistered meanwhile. */
  lemma ScheduleIndependence(cfg1: Config, cfg2: Config, tools1: Tools, tools2: Tools, clock1: real, clock2: real,
                             steps1: seq<Step>, steps2: seq<Step>, k: nat, j: nat, tool: Option<RegisteredTool>)
    requires RegistryOk(tools1) && Run(cfg1, Initial(tools1, clock1), steps1).Some?
    requires RegistryOk(tools2) && Run(cfg2, Initial(tools2, clock2), steps2).Some?
    requires Complete(cfg1, Run(cfg1, Initial(tools1, clock1), steps1).value)
    requires Complete(cfg2, Run(cfg2, Initial(tools2, clock2), steps2).value)
    requires cfg1.batches == cfg2.batches && k < |cfg1.batches| && j < |cfg1.batches[k]| && cfg1.replies(k, j) == cfg2.replies(k, j)
    requires BoundThroughout(cfg1, Initial(tools1, clock1), steps1, cfg1.batches[k][j].tool, tool)
    requires BoundThroughout(cfg2, Initial(tools2, clock2), steps2, cfg1.batches[k][j].tool, tool)
    ensures var s1 := Run(cfg1, Initial(tools1, clock1), steps1).value;
            var s2 := Run(cfg2, Initial(tools2, clock2), steps2).value;
            && k < |s1.done| && k < |s2.done| && j < |s1.done[k]| && j < |s2.done[k]|
            && SameButForClocks(s1.done[k][j], s2.done[k][j], OwnTime(tool, cfg1.replies(k, j)))
  {
    hide Run, Fills, BoundThroughout, Complete;
    SteadyTool(cfg1, tools1, clock1, steps1, k, j, tool);
    SteadyTool(cfg2, tools2, clock2, steps2, k, j, tool);
    FilledAlike(cfg1.batches[k][j], tool, cfg1.replies(k, j), Run(cfg1, Initial(tools1, clock1), steps1).value.done[k][j],
                Run(cfg2, Initial(tools2, clock2), steps2).value.done[k][j]);
  }

  /** Sequential mode is one of the parallel schedules. */
  lemma {:induction false} SequentialIsASchedule(cfg: Config, s: State, steps: seq<Step>)
    requires cfg.sequential && Run(cfg, s, steps).Some?
    ensures Run(cfg.(sequential := false), s, steps) == Run(cfg, s, steps)
  {
    if steps != [] {
      SequentialIsASchedule(cfg, s, steps[..|steps| - 1]);
    }
  }

  // ----- Progress

  function SlotWork(slot: Slot): nat {
    match slot
    case Waiting => 2
    case Running(_, _) => 1
    case Finished(_) => 0
  }

  function SlotsWork(slots: seq<Slot>): nat {
    if slots == [] then 0 else SlotsWork(slots[..|slots| - 1]) + SlotWork(slots[|slots| - 1])
  }

  /** The steps still needed for the batches from k on. */
  function WorkFrom(cfg: Config, k: nat): nat
    decreases |cfg.batches| - k
  {
    if k >= |cfg.batches| then 0 else 2 + 2 * |cfg.batches[k]| + WorkFrom(cfg, k + 1)
  }

  function Work(cfg: Config, s: State): nat {
    if s.phase.Between? then WorkFrom(cfg, |s.done|)
    else 1 + SlotsWork(s.phase.slots) + WorkFrom(cfg, |s.done| + 1)
  }

  lemma {:induction false} SlotsWorkUpdate(slots: seq<Slot>, j: nat, slot: Slot)
    requires j < |slots|
    ensures SlotsWork(slots[j := slot]) + SlotWork(slots[j]) == SlotsWork(slots) + SlotWork(slot)
  {
    var n := |slots| - 1;
    if j == n {
      assert slots[j := slot][..n] == slots[..n];
    } else {
      assert slots[j := slot][..n] == slots[..n][j := slot];
      SlotsWorkUpdate(slots[..n], j, slot);
    }
  }

  lemma {:induction false} UniformSlotsWork(slots: seq<Slot>, w: nat)
    requires forall i :: 0 <= i < |slots| ==> SlotWork(slots[i]) == w
    ensures SlotsWork(slots) == w * |slots|
  {
    if slots != [] {
      UniformSlotsWork(slots[..|slots| - 1], w);
    }
  }

  /** Every step but an outside one does exactly one unit of the work. */
  lemma StepDoesWork(cfg: Config, s: State, step: Step)
    requires ShapeOk(cfg, s) && Enabled(cfg, s, step)
    ensures Work(cfg, Next(cfg, s, step)) == Work(cfg, s) - (if step.Outside? then 0 else 1)
  {
    hide Invoke;
    match step {
      case OpenBatch =>
        UniformSlotsWork(Next(cfg, s, step).phase.slots, 2);
      case Start(j) =>
        SlotsWorkUpdate(s.phase.slots, j, Next(cfg, s, step).phase.slots[j]);
      case Finish(j, now) =>
        SlotsWorkUpdate(s.phase.slots, j, Next(cfg, s, step).phase.slots[j]);
      case CloseBatch =>
        UniformSlotsWork(s.phase.slots, 0);
      case Outside(_, _) =>
    }
  }

  /** No deadlock: until `run` is complete, some step of its own is enabled. */
  lemma SomeStepEnabled(cfg: Config, s: State) returns (step: Step)
    requires ShapeOk(cfg, s) && !Complete(cfg, s)
    ensures Enabled(cfg, s, step) && !step.Outside?
  {
    if s.phase.Between? {
      step := OpenBatch;
    } else if forall i :: 0 <= i < |s.phase.slots| ==> s.phase.slots[i].Finished? {
      step := CloseBatch;
    } else {
      var j := FirstUnfinished(s.phase.slots);
      step := if s.phase.slots[j].Waiting? then Start(j) else Finish(j, 0.0);
    }
  }

  lemma {:induction false} FirstUnfinished(slots: seq<Slot>) returns (j: nat)
    requires exists i :: 0 <= i < |slots| && !slots[i].Finished?
    ensures j < |slots| && !slots[j].Finished? && forall i :: 0 <= i < j ==> slots[i].Finished?
  {
    var front := slots[..|slots| - 1];
    if i :| 0 <= i < |front| && !front[i].Finished? {
      j := FirstUnfinished(front);
    } else {
      j := |slots| - 1;
      forall i | 0 <= i < j ensures slots[i].Finished? { assert front[i] == slots[i]; }
    }
  }

  /** From any reachable state the run can be completed, without outside help. */
  lemma {:induction false} CanComplete(cfg: Config, tools: Tools, clock: real, steps: seq<Step>) returns (all: seq<Step>)
    requires RegistryOk(tools) && Run(cfg, Initial(tools, clock), steps).Some?
    ensures steps <= all && Run(cfg, Initial(tools, clock), all).Some?
    ensures Complete(cfg, Run(cfg, Initial(tools, clock), all).value)
    decreases Work(cfg, Run(cfg, Initial(tools, clock), steps).value)
  {
    var s := Run(cfg, Initial(tools, clock), steps).value;
    if Complete(cfg, s) {
      all := steps;
    } else {
      RunKeepsInv(cfg, tools, clock, steps);
      var step := SomeStepEnabled(cfg, s);
      StepDoesWork(cfg, s, step);
      var more := steps + [step];
      assert more[..|more| - 1] == steps;
      hide ShapeOk, TraceOk, Work, Next, Enabled, Complete;
      all := CanComplete(cfg, tools, clock, more);
    }
  }

  function OwnSteps(steps: seq<Step>): nat {
    if steps == [] then 0 else OwnSteps(steps[..|steps| - 1]) + (if steps[|steps| - 1].Outside? then 0 else 1)
  }

  /** Termination: whatever the interleaving, a run takes at most two steps per
      batch and two per call, and is complete exactly when it has taken them
      all. */
  lemma {:induction false} RunLength(cfg: Config, tools: Tools, clock: real, steps: seq<Step>)
    requires RegistryOk(tools) && Run(cfg, Initial(tools, clock), steps).Some?
    ensures OwnSteps(steps) + Work(cfg, Run(cfg, Initial(tools, clock), steps).value) == WorkFrom(cfg, 0)
    ensures Complete(cfg, Run(cfg, Initial(tools, clock), steps).value) <==> OwnSteps(steps) == WorkFrom(cfg, 0)
  {
    var s := Run(cfg, Initial(tools, clock), steps).value;
    RunKeepsInv(cfg, tools, clock, steps);
    if steps != [] {
      var front := steps[..|steps| - 1];
      RunLength(cfg, tools, clock, front);
      RunKeepsInv(cfg, tools, clock, front);
      StepDoesWork(cfg, Run(cfg, Initial(tools, clock), front).value, steps[|steps| - 1]);
    }
    hide Next, Run, TraceOk, Enabled;
  }
}
