/** The factual digest handed to the aggregator (`_summarize_for_answer`,
    src/orchestrator/graph.py): which entries it holds, not their wording. */
module Digest {
  import opened Seqs
  import opened OrderedDict
  import opened Manifests
  import opened Schedule
  import ToolIndex
  import Router
  import Permissions
  import opened PlanRuns
  import opened Resolver

  datatype Line =
    | Resolved(sid: string, capability: string, policy: ResolvePolicy, tool: string, data: Payload)
    | Success(sid: string, capability: string, tool: string, data: Payload)
    | Failure(sid: string, capability: string, tool: string, error: Manifests.Failure)
    | Denied(tool: string, capability: string, scope: Scope)
    | Unroutable(capability: string)
    | Notes(text: string)

  datatype Facts = Facts(
    plan: Plan, results: seq<ToolResult>, conflicts: seq<Conflict>, resolutions: seq<Resolution>,
    denials: seq<Denial>, unroutable: seq<string>)

  // ----- Specification

  /** `{r.subtask_id: r for r in resolutions}`: the last one wins. */
  function ResolutionFor(resolutions: seq<Resolution>, sid: string): Option<Resolution> {
    if resolutions == [] then None else
      var r := resolutions[|resolutions| - 1];
      if r.subtaskId == sid then Some(r) else ResolutionFor(resolutions[..|resolutions| - 1], sid)
  }

  function OfTool(sid: string, tool: string): ToolResult -> bool {
    (r: ToolResult) => r.subtaskId == sid && r.tool == tool
  }

  /** `next(r for r in results if ...)`; None where it would raise. */
  function Winner(results: seq<ToolResult>, sid: string, tool: string): Option<ToolResult> {
    var found := Filter(OfTool(sid, tool), results);
    if found == [] then None else Some(found[0])
  }

  function ResultLine(st: Subtask): ToolResult -> Line {
    (r: ToolResult) => if r.ok then Success(st.id, st.capability, r.tool, r.data) else Failure(st.id, st.capability, r.tool, r.error)
  }

  function Conflicted(conflicts: seq<Conflict>): set<string> {
    set c | c in conflicts :: c.subtaskId
  }

  function SubtaskLines(f: Facts, st: Subtask): Option<seq<Line>> {
    var res := ResolutionFor(f.resolutions, st.id);
    if res.Some? then
      var w := Winner(f.results, st.id, res.value.chosenTool);
      if w.None? then None
      else Some([Resolved(st.id, st.capability, res.value.policy, res.value.chosenTool, w.value.data)])
    else if st.id in Conflicted(f.conflicts) then Some([])
    else Some(Map(ResultLine(st), Filter(Of(st.id), f.results)))
  }

  function PlanLines(f: Facts, subtasks: seq<Subtask>): Option<seq<Line>> {
    if subtasks == [] then Some([]) else
      var front := PlanLines(f, subtasks[..|subtasks| - 1]);
      var last := SubtaskLines(f, subtasks[|subtasks| - 1]);
      if front.None? || last.None? then None else Some(front.value + last.value)
  }

  function DenialLine(d: Denial): Line {
    Denied(d.tool, d.capability, d.scopeRequired)
  }

  /** `{st.id: st.capability for st in plan.subtasks}.get(sid, sid)`. */
  function CapabilityOf(subtasks: seq<Subtask>, sid: string): string {
    if subtasks == [] then sid else
      var st := subtasks[|subtasks| - 1];
      if st.id == sid then st.capability else CapabilityOf(subtasks[..|subtasks| - 1], sid)
  }

  function UnroutableLine(subtasks: seq<Subtask>): string -> Line {
    (sid: string) => Unroutable(CapabilityOf(subtasks, sid))
  }

  function NoteLines(notes: string): seq<Line> {
    if notes == "" then [] else [Notes(notes)]
  }

  function Summary(f: Facts): Option<seq<Line>> {
    var head := PlanLines(f, f.plan.subtasks);
    if head.None? then None
    else Some(head.value + Map(DenialLine, f.denials) + Map(UnroutableLine(f.plan.subtasks), f.unroutable) + NoteLines(f.plan.notes))
  }

  // ----- The loops

  method FindWinner(results: seq<ToolResult>, sid: string, tool: string) returns (w: Option<ToolResult>)
    ensures w == Winner(results, sid, tool)
  {
    for i := 0 to |results|
      invariant Filter(OfTool(sid, tool), results[..i]) == []
    {
      assert results[..i + 1] == results[..i] + [results[i]];
      FilterSnoc(OfTool(sid, tool), results[..i], results[i]);
      if results[i].subtaskId == sid && results[i].tool == tool {
        assert results == results[..i + 1] + results[i + 1..];
        FilterAppend(OfTool(sid, tool), results[..i + 1], results[i + 1..]);
        return Some(results[i]);
      }
    }
    assert results[..|results|] == results;
    return None;
  }

  method SummarizeSubtask(f: Facts, st: Subtask) returns (lines: Option<seq<Line>>)
    ensures lines == SubtaskLines(f, st)
  {
    var res := ResolutionFor(f.resolutions, st.id);
    if res.Some? {
      var w := FindWinner(f.results, st.id, res.value.chosenTool);
      if w.None? { return None; }
      return Some([Resolved(st.id, st.capability, res.value.policy, res.value.chosenTool, w.value.data)]);
    }
    if st.id in Conflicted(f.conflicts) { return Some([]); }
    var out: seq<Line> := [];
    for i := 0 to |f.results|
      invariant out == Map(ResultLine(st), Filter(Of(st.id), f.results[..i]))
    {
      var r := f.results[i];
      assert f.results[..i + 1] == f.results[..i] + [r];
      FilterSnoc(Of(st.id), f.results[..i], r);
      MapSnoc(ResultLine(st), Filter(Of(st.id), f.results[..i]), r);
      hide Filter, Map;
      if r.subtaskId == st.id {
        out := out + [if r.ok then Success(st.id, st.capability, r.tool, r.data) else Failure(st.id, st.capability, r.tool, r.error)];
      }
    }
    assert f.results[..|f.results|] == f.results;
    return Some(out);
  }

  method Summarize(f: Facts) returns (lines: Option<seq<Line>>)
    ensures lines == Summary(f)
  {
    hide SubtaskLines, CapabilityOf;
    var subtasks := f.plan.subtasks;
    var out: seq<Line> := [];
    for i := 0 to |subtasks|
      invariant PlanLines(f, subtasks[..i]) == Some(out)
    {
      assert subtasks[..i + 1][..i] == subtasks[..i];
      var entry := SummarizeSubtask(f, subtasks[i]);
      if entry.None? {
        CrashIsFinal(f, subtasks, i + 1);
        return None;
      }
      out := out + entry.value;
    }
    assert subtasks[..|subtasks|] == subtasks;
    ghost var head := out;
    hide PlanLines;
    for i := 0 to |f.denials|
      invariant out == head + Map(DenialLine, f.denials[..i])
    {
      assert f.denials[..i + 1] == f.denials[..i] + [f.denials[i]];
      MapSnoc(DenialLine, f.denials[..i], f.denials[i]);
      hide Map;
      out := out + [DenialLine(f.denials[i])];
    }
    assert f.denials[..|f.denials|] == f.denials;
    ghost var denied := out;
    for i := 0 to |f.unroutable|
      invariant out == denied + Map(UnroutableLine(subtasks), f.unroutable[..i])
    {
      assert f.unroutable[..i + 1] == f.unroutable[..i] + [f.unroutable[i]];
      MapSnoc(UnroutableLine(subtasks), f.unroutable[..i], f.unroutable[i]);
      hide Map;
      out := out + [Unroutable(CapabilityOf(subtasks, f.unroutable[i]))];
    }
    assert f.unroutable[..|f.unroutable|] == f.unroutable;
    return Some(out + NoteLines(f.plan.notes));
  }

  lemma {:induction false} CrashIsFinal(f: Facts, subtasks: seq<Subtask>, i: nat)
    requires i <= |subtasks| && PlanLines(f, subtasks[..i]).None?
    ensures PlanLines(f, subtasks).None?
  {
    hide SubtaskLines;
    if i == |subtasks| {
      assert subtasks[..i] == subtasks;
    } else {
      assert subtasks[..|subtasks| - 1][..i] == subtasks[..i];
      CrashIsFinal(f, subtasks[..|subtasks| - 1], i);
    }
  }

  // ----- What the digest says

  /** What the conflict check and the resolver leave behind: one resolution per
      conflict, naming one of its results. */
  predicate Settled(f: Facts) {
    && f.conflicts == Conflicts(f.results)
    && |f.resolutions| == |f.conflicts|
    && forall i :: 0 <= i < |f.conflicts| ==>
         f.resolutions[i].subtaskId == f.conflicts[i].subtaskId
         && exists w :: w in f.conflicts[i].results && w.tool == f.resolutions[i].chosenTool
  }

  lemma {:induction false} ResolutionForMeaning(resolutions: seq<Resolution>, sid: string)
    ensures ResolutionFor(resolutions, sid).None? ==> forall r :: r in resolutions ==> r.subtaskId != sid
    ensures ResolutionFor(resolutions, sid).Some? ==>
              ResolutionFor(resolutions, sid).value in resolutions && ResolutionFor(resolutions, sid).value.subtaskId == sid
    ensures forall i :: 0 <= i < |resolutions| && resolutions[i].subtaskId == sid
                        && (forall j :: i < j < |resolutions| ==> resolutions[j].subtaskId != sid) ==>
              ResolutionFor(resolutions, sid) == Some(resolutions[i])
  {
    if resolutions != [] {
      var front, r := resolutions[..|resolutions| - 1], resolutions[|resolutions| - 1];
      assert resolutions == front + [r];
      ResolutionForMeaning(front, sid);
    }
  }

  /** A settled subtask is resolved exactly when it is conflicted, by a tool
      that is among its successes; the `elif` that skips a conflicted but
      unresolved subtask is never taken. */
  lemma SettledSubtask(f: Facts, sid: string)
    requires Settled(f)
    ensures ResolutionFor(f.resolutions, sid).Some? <==> sid in Conflicted(f.conflicts)
    ensures sid in Conflicted(f.conflicts) <==> Disagree(f.results, sid)
    ensures ResolutionFor(f.resolutions, sid).Some? ==>
              exists w :: w in Successes(f.results, sid) && w.tool == ResolutionFor(f.resolutions, sid).value.chosenTool
  {
    ConflictTheorem(f.results);
    ResolutionForMeaning(f.resolutions, sid);
    hide Conflicts, Successes, Disagree, ResolutionFor;
    if ResolutionFor(f.resolutions, sid).Some? {
      var r := ResolutionFor(f.resolutions, sid).value;
      var i :| 0 <= i < |f.resolutions| && f.resolutions[i] == r;
      assert f.conflicts[i] in f.conflicts;
    }
    if sid in Conflicted(f.conflicts) {
      var c :| c in f.conflicts && c.subtaskId == sid;
      var i :| 0 <= i < |f.conflicts| && f.conflicts[i] == c;
      assert f.resolutions[i] in f.resolutions;
    }
  }

  lemma {:induction false} ResolutionAt(resolutions: seq<Resolution>, i: nat)
    requires i < |resolutions|
    requires forall j, k :: 0 <= j < k < |resolutions| ==> resolutions[j].subtaskId != resolutions[k].subtaskId
    ensures ResolutionFor(resolutions, resolutions[i].subtaskId) == Some(resolutions[i])
  {
    if i < |resolutions| - 1 { ResolutionAt(resolutions[..|resolutions| - 1], i); }
  }

  /** Each resolution is the one found for its subtask. */
  lemma OneResolution(f: Facts, i: nat)
    requires Settled(f) && i < |f.resolutions|
    ensures ResolutionFor(f.resolutions, f.conflicts[i].subtaskId) == Some(f.resolutions[i])
  {
    ConflictTheorem(f.results);
    hide Conflicts, ResolutionFor, Disagree, Successes, OkIds;
    var rs, cs := f.resolutions, f.conflicts;
    forall j, k | 0 <= j < k < |rs| ensures rs[j].subtaskId != rs[k].subtaskId {
      assert rs[j].subtaskId == cs[j].subtaskId && rs[k].subtaskId == cs[k].subtaskId;
    }
    ResolutionAt(rs, i);
  }

  /** The winner lookup never comes back empty. */
  lemma WinnerExists(f: Facts, sid: string)
    requires Settled(f) && ResolutionFor(f.resolutions, sid).Some?
    ensures var tool := ResolutionFor(f.resolutions, sid).value.chosenTool;
            Winner(f.results, sid, tool).Some? && OfTool(sid, tool)(Winner(f.results, sid, tool).value)
  {
    SettledSubtask(f, sid);
    var tool := ResolutionFor(f.resolutions, sid).value.chosenTool;
    hide ResolutionFor, Settled;
    var w :| w in Successes(f.results, sid) && w.tool == tool;
    FilterMembers(OkFor(sid), f.results);
    FilterMembers(OfTool(sid, tool), f.results);
    assert w in Filter(OfTool(sid, tool), f.results);
    assert Filter(OfTool(sid, tool), f.results)[0] in Filter(OfTool(sid, tool), f.results);
  }

  lemma {:induction false} PlanLinesMembers(f: Facts, subtasks: seq<Subtask>)
    requires forall st :: st in subtasks ==> SubtaskLines(f, st).Some?
    ensures PlanLines(f, subtasks).Some?
    ensures forall l :: l in PlanLines(f, subtasks).value <==> exists st :: st in subtasks && l in SubtaskLines(f, st).value
  {
    hide SubtaskLines;
    if subtasks != [] {
      var front, st := subtasks[..|subtasks| - 1], subtasks[|subtasks| - 1];
      assert subtasks == front + [st];
      PlanLinesMembers(f, front);
      assert st in subtasks;
    }
  }

  lemma SettledLines(f: Facts, st: Subtask)
    requires Settled(f)
    ensures SubtaskLines(f, st).Some?
  {
    hide Settled, Winner, ResolutionFor;
    if ResolutionFor(f.resolutions, st.id).Some? { WinnerExists(f, st.id); }
  }

  /** The digest is total: no `next(...)` in it can raise. */
  lemma DigestIsTotal(f: Facts)
    requires Settled(f)
    ensures Summary(f).Some?
  {
    hide Settled, SubtaskLines;
    forall st | st in f.plan.subtasks ensures SubtaskLines(f, st).Some? { SettledLines(f, st); }
    PlanLinesMembers(f, f.plan.subtasks);
  }

  // ----- One answer per subtask

  /** The line tells the reader that this subtask's answer is `data`. */
  predicate Tells(l: Line, sid: string, data: Payload) {
    (l.Resolved? || l.Success?) && l.sid == sid && l.data == data
  }

  predicate Reported(lines: seq<Line>, sid: string, data: Payload) {
    exists l :: l in lines && Tells(l, sid, data)
  }

  /** The payload a settled digest reports for a subtask with a success. */
  function AnswerFor(f: Facts, sid: string): Payload
    requires Successes(f.results, sid) != []
  {
    var res := ResolutionFor(f.resolutions, sid);
    var w := if res.Some? then Winner(f.results, sid, res.value.chosenTool) else None;
    if w.Some? then w.value.data else Successes(f.results, sid)[0].data
  }

  lemma UnresolvedLines(f: Facts, st: Subtask, data: Payload)
    requires Settled(f) && ResolutionFor(f.resolutions, st.id).None?
    ensures SubtaskLines(f, st).Some?
    ensures (exists l :: l in SubtaskLines(f, st).value && Tells(l, st.id, data)) <==>
            Successes(f.results, st.id) != [] && data == Successes(f.results, st.id)[0].data
  {
    SettledSubtask(f, st.id);
    var sid := st.id;
    var mine, good := Filter(Of(sid), f.results), Successes(f.results, sid);
    FilterMembers(Of(sid), f.results);
    FilterMembers(OkFor(sid), f.results);
    assert forall r :: r in good <==> r in f.results && OkFor(sid)(r);
    assert forall r :: r in mine <==> r in f.results && Of(sid)(r);
    var lines := SubtaskLines(f, st).value;
    assert lines == Map(ResultLine(st), mine);
    hide Settled, ResolutionFor, Filter, Successes;
    if l :| l in lines && Tells(l, sid, data) {
      var i :| 0 <= i < |lines| && lines[i] == l;
      var r := mine[i];
      assert r in mine && r.ok && r.data == data;
      assert r in good && good[0] in good;
    }
    if good != [] && data == good[0].data {
      assert good[0] in good && good[0] in mine;
      var i :| 0 <= i < |mine| && mine[i] == good[0];
      assert lines[i] in lines && Tells(lines[i], sid, data);
    }
  }

  lemma LinesTell(f: Facts, st: Subtask, data: Payload)
    requires Settled(f)
    ensures SubtaskLines(f, st).Some?
    ensures (exists l :: l in SubtaskLines(f, st).value && Tells(l, st.id, data)) <==>
            Successes(f.results, st.id) != [] && data == AnswerFor(f, st.id)
  {
    SettledSubtask(f, st.id);
    if ResolutionFor(f.resolutions, st.id).Some? {
      WinnerExists(f, st.id);
      hide Settled, ResolutionFor, Winner, Successes;
      var line := SubtaskLines(f, st).value[0];
      assert SubtaskLines(f, st).value == [line];
      assert line in SubtaskLines(f, st).value;
    } else {
      UnresolvedLines(f, st, data);
    }
  }

  lemma OwnLinesOnly(f: Facts, st: Subtask, l: Line, sid: string, data: Payload)
    requires SubtaskLines(f, st).Some? && l in SubtaskLines(f, st).value && Tells(l, sid, data)
    ensures st.id == sid
  {
  }

  /** One answer per subtask: a digest line reports a payload as subtask sid's
      answer exactly when sid had a success, and it is always the same payload
      -- the resolution winner's, or the common payload of the successes. */
  lemma OneAnswer(f: Facts, sid: string, data: Payload)
    requires Settled(f) && sid in Ids(f.plan.subtasks)
    ensures Summary(f).Some?
    ensures Reported(Summary(f).value, sid, data) <==> Successes(f.results, sid) != [] && data == AnswerFor(f, sid)
  {
    DigestIsTotal(f);
    var head := PlanLines(f, f.plan.subtasks).value;
    var lines := Summary(f).value;
    forall st | st in f.plan.subtasks ensures SubtaskLines(f, st).Some? { SettledLines(f, st); }
    PlanLinesMembers(f, f.plan.subtasks);
    forall l | l in lines && Tells(l, sid, data) ensures l in head { }
    hide Settled, SubtaskLines, Summary, PlanLines, AnswerFor, Successes;
    if Reported(lines, sid, data) {
      var l :| l in lines && Tells(l, sid, data);
      var st :| st in f.plan.subtasks && l in SubtaskLines(f, st).value;
      OwnLinesOnly(f, st, l, sid, data);
      LinesTell(f, st, data);
    }
    if Successes(f.results, sid) != [] && data == AnswerFor(f, sid) {
      var st :| st in f.plan.subtasks && st.id == sid;
      LinesTell(f, st, data);
      var l :| l in SubtaskLines(f, st).value && Tells(l, sid, data);
      assert l in head;
      HeadIsThere(f, l);
    }
  }

  lemma HeadIsThere(f: Facts, l: Line)
    requires Summary(f).Some? && PlanLines(f, f.plan.subtasks).Some? && l in PlanLines(f, f.plan.subtasks).value
    ensures l in Summary(f).value
  {
    hide PlanLines;
  }

  // ----- Everything else that happened

  /** The digest accounts for the rest as well: a FAILED line for exactly the
      failed results of unconflicted plan subtasks, a DENIED line for exactly
      the denials, an UNROUTABLE line for exactly the unroutable ids, and the
      planner's notes if there are any. */
  lemma DigestAccounts(f: Facts, l: Line)
    requires Settled(f)
    ensures Summary(f).Some?
    ensures l.Failure? ==>
              (l in Summary(f).value <==>
                 exists st, r :: st in f.plan.subtasks && r in f.results && r.subtaskId == st.id && !r.ok
                   && st.id !in Conflicted(f.conflicts) && l == Failure(st.id, st.capability, r.tool, r.error))
    ensures l.Denied? ==> (l in Summary(f).value <==> exists d :: d in f.denials && l == Denied(d.tool, d.capability, d.scopeRequired))
    ensures l.Unroutable? ==> (l in Summary(f).value <==> exists sid :: sid in f.unroutable && l == UnroutableLine(f.plan.subtasks)(sid))
    ensures l.Notes? ==> (l in Summary(f).value <==> f.plan.notes != "" && l == Notes(f.plan.notes))
  {
    DigestIsTotal(f);
    forall st | st in f.plan.subtasks ensures SubtaskLines(f, st).Some? { SettledLines(f, st); }
    PlanLinesMembers(f, f.plan.subtasks);
    Permissions.MapMembers(DenialLine, f.denials);
    Permissions.MapMembers(UnroutableLine(f.plan.subtasks), f.unroutable);
    forall st | st in f.plan.subtasks
      ensures l in SubtaskLines(f, st).value && l.Failure? <==>
                exists r :: r in f.results && r.subtaskId == st.id && !r.ok
                  && st.id !in Conflicted(f.conflicts) && l == Failure(st.id, st.capability, r.tool, r.error)
      ensures l in SubtaskLines(f, st).value ==> l.Resolved? || l.Success? || l.Failure?
    {
      FailureLines(f, st, l);
    }
    hide Settled, SubtaskLines, PlanLines, Map, CapabilityOf;
  }

  lemma FailureLines(f: Facts, st: Subtask, l: Line)
    requires Settled(f) && SubtaskLines(f, st).Some?
    ensures l in SubtaskLines(f, st).value && l.Failure? <==>
              exists r :: r in f.results && r.subtaskId == st.id && !r.ok
                && st.id !in Conflicted(f.conflicts) && l == Failure(st.id, st.capability, r.tool, r.error)
    ensures l in SubtaskLines(f, st).value ==> l.Resolved? || l.Success? || l.Failure?
  {
    SettledSubtask(f, st.id);
    FilterMembers(Of(st.id), f.results);
    Permissions.MapMembers(ResultLine(st), Filter(Of(st.id), f.results));
    hide Settled, ResolutionFor, Filter, Map, Winner, Disagree;
  }

  // ----- UNROUTABLE lines

  lemma {:induction false} CapabilityOfMeaning(subtasks: seq<Subtask>, k: nat)
    requires LastBearer(subtasks, k)
    ensures CapabilityOf(subtasks, subtasks[k].id) == subtasks[k].capability
  {
    if k < |subtasks| - 1 {
      assert subtasks[|subtasks| - 1].id != subtasks[k].id;
      CapabilityOfMeaning(subtasks[..|subtasks| - 1], k);
    }
  }

  /** Some subtask carries the id, and the last one that does. */
  lemma {:induction false} LastBearerExists(subtasks: seq<Subtask>, sid: string) returns (k: nat)
    requires sid in Ids(subtasks)
    ensures LastBearer(subtasks, k) && subtasks[k].id == sid
  {
    var n := |subtasks| - 1;
    if subtasks[n].id == sid {
      k := n;
    } else {
      assert subtasks == subtasks[..n] + [subtasks[n]];
      k := LastBearerExists(subtasks[..n], sid);
      assert forall m :: k < m < n ==> subtasks[m] == subtasks[..n][m];
    }
  }

  lemma {:induction false} CapabilityOfAbsent(subtasks: seq<Subtask>, sid: string)
    requires sid !in Ids(subtasks)
    ensures CapabilityOf(subtasks, sid) == sid
  {
    if subtasks != [] {
      var front, last := subtasks[..|subtasks| - 1], subtasks[|subtasks| - 1];
      assert subtasks == front + [last] && last in subtasks;
      CapabilityOfAbsent(front, sid);
    }
  }

  /** An UNROUTABLE line names the capability of the id's last bearer, or the id
      itself if the plan has no such subtask. */
  lemma UnroutableLineNames(f: Facts, l: Line)
    requires Settled(f) && l.Unroutable?
    ensures Summary(f).Some?
    ensures l in Summary(f).value <==>
            || (exists k: nat :: LastBearer(f.plan.subtasks, k) && f.plan.subtasks[k].id in f.unroutable
                                 && l == Unroutable(f.plan.subtasks[k].capability))
            || (exists sid :: sid in f.unroutable && sid !in Ids(f.plan.subtasks) && l == Unroutable(sid))
  {
    var subtasks := f.plan.subtasks;
    DigestAccounts(f, l);
    hide Settled, Summary, CapabilityOf;
    forall sid | sid in f.unroutable
      ensures sid !in Ids(subtasks) ==> CapabilityOf(subtasks, sid) == sid
      ensures sid in Ids(subtasks) ==> exists k: nat :: LastBearer(subtasks, k) && subtasks[k].id == sid && CapabilityOf(subtasks, sid) == subtasks[k].capability
    {
      if sid in Ids(subtasks) {
        var k := LastBearerExists(subtasks, sid);
        CapabilityOfMeaning(subtasks, k);
      } else {
        CapabilityOfAbsent(subtasks, sid);
      }
    }
    forall k: nat | LastBearer(subtasks, k) ensures CapabilityOf(subtasks, subtasks[k].id) == subtasks[k].capability {
      CapabilityOfMeaning(subtasks, k);
    }
  }

  /** The line written for an unroutable id claims that no tool is registered
      for the capability it names.  With a repeated id it names the last
      bearer's capability, so the claim is true exactly when the last subtask
      with that id is itself unroutable. */
  lemma UnroutableLineTruth(subtasks: seq<Subtask>, tools: ToolIndex.Tools, mode: Router.RouterMode, sid: string, k: nat)
    requires ToolIndex.RegistryOk(tools) && sid in Router.Route(subtasks, tools, mode).unroutable
    requires LastBearer(subtasks, k) && subtasks[k].id == sid
    ensures var l := UnroutableLine(subtasks)(sid);
            ToolIndex.FindByCapability(tools, l.capability) == [] <==> !Router.Routable(tools, subtasks[k])
  {
    CapabilityOfMeaning(subtasks, k);
  }

  /** Two subtasks under one id, of which only the second can be served. */
  function OneIdTwice(): seq<Subtask> {
    [Subtask("s", "x", map[], []), Subtask("s", "c", map[], [])]
  }

  function OneTool(): ToolIndex.Tools {
    Empty().Put("t", RegisteredTool(ToolManifest("t", "", ["c"], Read, 1, 10.0, map[]), 0))
  }

  lemma OneToolOffers(cap: string)
    ensures ToolIndex.RegistryOk(OneTool())
    ensures ToolIndex.FindByCapability(OneTool(), cap) != [] <==> cap == "c"
  {
    var t := RegisteredTool(ToolManifest("t", "", ["c"], Read, 1, 10.0, map[]), 0);
    assert OneTool().keys == ["t"] && OneTool().vals == map["t" := t];
    assert OneTool().Values() == [t];
    hide OneTool;
    ToolIndex.FindByCapabilityMeaning(OneTool(), cap);
    hide ToolIndex.FindByCapability;
    assert ToolIndex.Offers(cap)(t) <==> cap == "c";
    if ToolIndex.FindByCapability(OneTool(), cap) != [] {
      assert ToolIndex.FindByCapability(OneTool(), cap)[0] in ToolIndex.FindByCapability(OneTool(), cap);
    }
  }

  /** It can be false: here the line says that nothing offers "c", and a tool
      does. */
  lemma UnroutableLineCanBeFalse(mode: Router.RouterMode)
    ensures ToolIndex.RegistryOk(OneTool()) && "s" in Router.Route(OneIdTwice(), OneTool(), mode).unroutable
    ensures UnroutableLine(OneIdTwice())("s") == Unroutable("c")
    ensures ToolIndex.FindByCapability(OneTool(), "c") != []
  {
    var subtasks := OneIdTwice();
    OneToolOffers("c");
    OneToolOffers("x");
    Router.RouteIds(subtasks, OneTool(), mode);
    assert subtasks[0] in subtasks;
    CapabilityOfMeaning(subtasks, 1);
    hide Router.Route;
    hide OneTool, CapabilityOf;
    assert "s" in Elements(Router.Route(subtasks, OneTool(), mode).unroutable);
  }

  lemma UnroutableLineTrueIfUnique(plan: Plan, tools: ToolIndex.Tools, mode: Router.RouterMode, sid: string)
    requires ToolIndex.RegistryOk(tools) && UniqueIds(plan) && sid in Router.Route(plan.subtasks, tools, mode).unroutable
    ensures ToolIndex.FindByCapability(tools, UnroutableLine(plan.subtasks)(sid).capability) == []
  {
    Router.RouteIds(plan.subtasks, tools, mode);
    hide Router.Route;
    assert sid in Elements(Router.Route(plan.subtasks, tools, mode).unroutable);
    var k := LastBearerExists(plan.subtasks, sid);
    Router.UniqueRoute(plan, tools, mode, plan.subtasks[k]);
    UnroutableLineTruth(plan.subtasks, tools, mode, sid, k);
  }
}
