/** Conflict detection and resolution (src/orchestrator/resolver.py). */
module Resolver {
  import opened Seqs
  import opened OrderedDict
  import opened Manifests
  import opened ToolIndex
  import opened Llm

  // ----- detect_conflicts

  function OkFor(sid: string): ToolResult -> bool {
    (r: ToolResult) => r.ok && r.subtaskId == sid
  }

  function Successes(results: seq<ToolResult>, sid: string): seq<ToolResult> {
    Filter(OkFor(sid), results)
  }

  /** The subtasks with a success, in order of their first one. */
  function OkIds(results: seq<ToolResult>): seq<string> {
    if results == [] then [] else
      var ids, r := OkIds(results[..|results| - 1]), results[|results| - 1];
      if r.ok && r.subtaskId !in ids then ids + [r.subtaskId] else ids
  }

  /** The source compares every later payload with the first only. */
  predicate DiffersFromFirst(group: seq<ToolResult>) {
    |group| >= 2 && exists i :: 1 <= i < |group| && group[i].data != group[0].data
  }

  function ConflictsAmong(results: seq<ToolResult>, ids: seq<string>): seq<Conflict> {
    if ids == [] then [] else
      var sid := ids[|ids| - 1];
      var group := Successes(results, sid);
      ConflictsAmong(results, ids[..|ids| - 1]) +
      (if DiffersFromFirst(group) then [Conflict(sid, group[0].capability, group)] else [])
  }

  function Conflicts(results: seq<ToolResult>): seq<Conflict> {
    ConflictsAmong(results, OkIds(results))
  }

  predicate Grouped(groups: Dict<string, seq<ToolResult>>, results: seq<ToolResult>) {
    && groups.Valid() && groups.keys == OkIds(results)
    && forall sid :: sid in groups.vals ==> groups.vals[sid] == Successes(results, sid)
  }

  lemma {:induction false} OkIdsMeaning(results: seq<ToolResult>)
    ensures Distinct(OkIds(results))
    ensures forall sid :: sid in OkIds(results) <==> Successes(results, sid) != []
  {
    if results != [] {
      var front, r := results[..|results| - 1], results[|results| - 1];
      OkIdsMeaning(front);
    }
  }

  lemma GroupOne(groups: Dict<string, seq<ToolResult>>, results: seq<ToolResult>, r: ToolResult)
    requires Grouped(groups, results)
    ensures if r.ok then
              var was := if r.subtaskId in groups.vals then groups.vals[r.subtaskId] else [];
              Grouped(groups.Put(r.subtaskId, was + [r]), results + [r])
            else Grouped(groups, results + [r])
  {
    assert (results + [r])[..|results|] == results;
    OkIdsMeaning(results);
    assert r.subtaskId in groups.vals <==> r.subtaskId in Elements(groups.keys);
    forall sid ensures Successes(results + [r], sid) == Successes(results, sid) + (if r.ok && r.subtaskId == sid then [r] else []) {
      FilterSnoc(OkFor(sid), results, r);
    }
    hide Filter, Successes;
  }

  method GroupSuccesses(results: seq<ToolResult>) returns (groups: Dict<string, seq<ToolResult>>)
    ensures Grouped(groups, results)
  {
    groups := Empty();
    for i := 0 to |results|
      invariant Grouped(groups, results[..i])
    {
      var r := results[i];
      assert results[..i + 1] == results[..i] + [r];
      GroupOne(groups, results[..i], r);
      hide Grouped;
      if r.ok {
        groups := groups.Put(r.subtaskId, (if r.subtaskId in groups.vals then groups.vals[r.subtaskId] else []) + [r]);
      }
    }
    assert results[..|results|] == results;
  }

  method DetectConflicts(results: seq<ToolResult>) returns (conflicts: seq<Conflict>)
    ensures conflicts == Conflicts(results)
  {
    var groups := GroupSuccesses(results);
    conflicts := [];
    var ids := groups.keys;
    for i := 0 to |ids|
      invariant conflicts == ConflictsAmong(results, ids[..i])
    {
      hide Successes, OkIds;
      assert ids[..i + 1][..i] == ids[..i];
      assert ids[i] in Elements(groups.keys);
      var group := groups.vals[ids[i]];
      if |group| >= 2 {
        var first := group[0].data;
        if exists k :: 1 <= k < |group| && group[k].data != first {
          conflicts := conflicts + [Conflict(ids[i], group[0].capability, group)];
        }
      }
    }
    assert ids[..|ids|] == ids;
  }

  lemma {:induction false} ConflictsAmongMeaning(results: seq<ToolResult>, ids: seq<string>)
    requires Distinct(ids)
    ensures var cs := ConflictsAmong(results, ids);
            && |cs| <= |ids|
            && (forall c :: c in cs ==> c.subtaskId in ids && DiffersFromFirst(c.results)
                                        && c.results == Successes(results, c.subtaskId) && c.capability == c.results[0].capability)
            && (forall sid :: sid in ids && DiffersFromFirst(Successes(results, sid)) ==> exists c :: c in cs && c.subtaskId == sid)
            && (forall i, j :: 0 <= i < j < |cs| ==> cs[i].subtaskId != cs[j].subtaskId)
  {
    hide Successes, DiffersFromFirst;
    if ids != [] {
      var front, sid := ids[..|ids| - 1], ids[|ids| - 1];
      ConflictsAmongMeaning(results, front);
      assert ids == front + [sid];
      var cs0, cs := ConflictsAmong(results, front), ConflictsAmong(results, ids);
      forall i | 0 <= i < |cs0| ensures cs0[i].subtaskId != sid {
        assert cs0[i] in cs0;
      }
      forall x | x in ids && DiffersFromFirst(Successes(results, x)) ensures exists c :: c in cs && c.subtaskId == x {
        if x == sid {
          assert cs[|cs| - 1].subtaskId == sid && cs[|cs| - 1] in cs;
        } else {
          assert x in front;
          var c :| c in cs0 && c.subtaskId == x;
          assert c in cs;
        }
      }
    }
  }

  /** Two successful results of one subtask that differ in data. */
  ghost predicate Disagree(results: seq<ToolResult>, sid: string) {
    exists a, b :: a in results && b in results && OkFor(sid)(a) && OkFor(sid)(b) && a.data != b.data
  }

  lemma DisagreeMeaning(results: seq<ToolResult>, sid: string)
    ensures Disagree(results, sid) <==> DiffersFromFirst(Successes(results, sid))
  {
    var group := Successes(results, sid);
    FilterMembers(OkFor(sid), results);
    assert group == Filter(OkFor(sid), results);
    hide Filter, Successes;
    if Disagree(results, sid) {
      var a, b :| a in results && b in results && OkFor(sid)(a) && OkFor(sid)(b) && a.data != b.data;
      assert a in group && b in group;
      var i :| 0 <= i < |group| && group[i] == a;
      var j :| 0 <= j < |group| && group[j] == b;
      assert group[i].data != group[0].data || group[j].data != group[0].data;
    }
    if DiffersFromFirst(group) {
      var i :| 1 <= i < |group| && group[i].data != group[0].data;
      assert group[i] in group && group[0] in group;
    }
  }

  /** Comparing with the first success is complete: a subtask has a conflict
      exactly when some two of its successes differ; there is at most one per
      subtask, holding exactly that subtask's successes in order. */
  lemma ConflictTheorem(results: seq<ToolResult>)
    ensures var cs := Conflicts(results);
            && (forall sid :: Disagree(results, sid) <==> exists c :: c in cs && c.subtaskId == sid)
            && (forall c :: c in cs ==> |c.results| >= 2 && c.results == Successes(results, c.subtaskId)
                                        && c.capability == c.results[0].capability)
            && (forall i, j :: 0 <= i < j < |cs| ==> cs[i].subtaskId != cs[j].subtaskId)
            && |cs| <= |OkIds(results)|
  {
    OkIdsMeaning(results);
    ConflictsAmongMeaning(results, OkIds(results));
    hide Successes, OkIds, ConflictsAmong, Disagree;
    forall sid ensures Disagree(results, sid) <==> exists c :: c in Conflicts(results) && c.subtaskId == sid {
      DisagreeMeaning(results, sid);
    }
  }

  function IsOk(): ToolResult -> bool {
    (r: ToolResult) => r.ok
  }

  function SubtaskOf(r: ToolResult): string {
    r.subtaskId
  }

  function ConflictId(c: Conflict): string {
    c.subtaskId
  }

  function HasConflict(results: seq<ToolResult>): string -> bool {
    (sid: string) => DiffersFromFirst(Successes(results, sid))
  }

  lemma {:induction false} OkIdsInOrder(results: seq<ToolResult>)
    ensures OkIds(results) == Firsts(Map(SubtaskOf, Filter(IsOk(), results)))
  {
    if results != [] {
      var front, r := results[..|results| - 1], results[|results| - 1];
      assert results == front + [r];
      OkIdsInOrder(front);
      FilterSnoc(IsOk(), front, r);
      var ids := Map(SubtaskOf, Filter(IsOk(), front));
      MapSnoc(SubtaskOf, Filter(IsOk(), front), r);
      FirstsMeaning(ids);
      hide Filter, Map;
      if r.ok {
        assert (ids + [r.subtaskId])[..|ids|] == ids;
        assert Map(SubtaskOf, Filter(IsOk(), results)) == ids + [r.subtaskId];
      } else {
        assert Filter(IsOk(), results) == Filter(IsOk(), front);
      }
    }
  }

  lemma {:induction false} ConflictsInOrder(results: seq<ToolResult>, ids: seq<string>)
    ensures Map(ConflictId, ConflictsAmong(results, ids)) == Filter(HasConflict(results), ids)
  {
    if ids != [] {
      ConflictsInOrder(results, ids[..|ids| - 1]);
      hide Successes, DiffersFromFirst;
    }
  }

  /** The conflicts come in the order in which their subtasks first succeeded. */
  lemma ConflictOrder(results: seq<ToolResult>)
    ensures Map(ConflictId, Conflicts(results)) == Filter(HasConflict(results), Firsts(Map(SubtaskOf, Filter(IsOk(), results))))
  {
    OkIdsInOrder(results);
    ConflictsInOrder(results, OkIds(results));
    hide OkIds, ConflictsAmong, Filter, Map;
  }

  // ----- The three policies

  datatype ResolvePolicy = ByPriority | ByFreshness | ByModel

  datatype FallbackReason = ModelFailed | NotACandidate(named: string)

  datatype Rationale = HighestPriority(priority: real) | MostRecent | FromModel(text: string) | FellBack(reason: FallbackReason, priority: real)

  datatype Resolution = Resolution(subtaskId: string, capability: string, policy: ResolvePolicy, chosenTool: string, rationale: Rationale)

  datatype Adjudication = Adjudication(choice: string, rationale: string)

  /** Python's `max`: the first of the maximal elements. */
  function FirstMax(key: ToolResult -> real, rs: seq<ToolResult>): (m: nat)
    requires rs != []
    ensures m < |rs|
  {
    if |rs| == 1 then 0 else
      var m := FirstMax(key, rs[..|rs| - 1]);
      if key(rs[|rs| - 1]) > key(rs[m]) then |rs| - 1 else m
  }

  lemma {:induction false} FirstMaxMeaning(key: ToolResult -> real, rs: seq<ToolResult>)
    requires rs != []
    ensures var m := FirstMax(key, rs);
            && (forall i :: 0 <= i < |rs| ==> key(rs[i]) <= key(rs[m]))
            && (forall i :: 0 <= i < m ==> key(rs[i]) < key(rs[m]))
  {
    if |rs| > 1 {
      var front := rs[..|rs| - 1];
      FirstMaxMeaning(key, front);
      assert forall i :: 0 <= i < |front| ==> front[i] == rs[i];
    }
  }

  /** A tool no longer registered counts as priority 0. */
  function PriorityOf(tools: Tools): ToolResult -> real {
    (r: ToolResult) => if r.tool in tools.vals then tools.vals[r.tool].manifest.priority as real else 0.0
  }

  function Freshness(): ToolResult -> real {
    (r: ToolResult) => r.observedAt
  }

  function Choose(c: Conflict, key: ToolResult -> real): ToolResult
    requires c.results != []
  {
    c.results[FirstMax(key, c.results)]
  }

  function ResolveOne(c: Conflict, policy: ResolvePolicy, tools: Tools, reply: Outcome<Adjudication>): Resolution
    requires c.results != []
  {
    var top := Choose(c, PriorityOf(tools));
    match policy
    case ByPriority => Resolution(c.subtaskId, c.capability, ByPriority, top.tool, HighestPriority(PriorityOf(tools)(top)))
    case ByFreshness => Resolution(c.subtaskId, c.capability, ByFreshness, Choose(c, Freshness()).tool, MostRecent)
    case ByModel =>
      match reply
      case Answer(a) =>
        if exists i :: 0 <= i < |c.results| && c.results[i].tool == a.choice then
          Resolution(c.subtaskId, c.capability, ByModel, a.choice, FromModel(a.rationale))
        else
          Resolution(c.subtaskId, c.capability, ByModel, top.tool, FellBack(NotACandidate(a.choice), PriorityOf(tools)(top)))
      case _ =>
        Resolution(c.subtaskId, c.capability, ByModel, top.tool, FellBack(ModelFailed, PriorityOf(tools)(top)))
  }

  /** One resolution per conflict; `toolsAt(i)` is the live registry when
      conflict i is taken up. */
  function ResolveAll(conflicts: seq<Conflict>, policy: ResolvePolicy, toolsAt: nat -> Tools, replies: nat -> Outcome<Adjudication>): seq<Resolution>
    requires forall c :: c in conflicts ==> c.results != []
  {
    seq(|conflicts|, i requires 0 <= i < |conflicts| => ResolveOne(conflicts[i], policy, toolsAt(i), replies(i)))
  }

  method Resolve(conflicts: seq<Conflict>, policy: ResolvePolicy, toolsAt: nat -> Tools, replies: nat -> Outcome<Adjudication>)
    returns (resolutions: seq<Resolution>)
    requires forall c :: c in conflicts ==> c.results != []
    ensures resolutions == ResolveAll(conflicts, policy, toolsAt, replies)
  {
    resolutions := [];
    for i := 0 to |conflicts|
      invariant |resolutions| == i
      invariant forall k :: 0 <= k < i ==> resolutions[k] == ResolveOne(conflicts[k], policy, toolsAt(k), replies(k))
    {
      hide ResolveOne;
      resolutions := resolutions + [ResolveOne(conflicts[i], policy, toolsAt(i), replies(i))];
    }
  }

  /** The highest-priority result, the earliest of equals. */
  predicate TopByPriority(c: Conflict, tools: Tools, w: ToolResult) {
    exists m :: 0 <= m < |c.results| && c.results[m] == w
                && (forall i :: 0 <= i < |c.results| ==> PriorityOf(tools)(c.results[i]) <= PriorityOf(tools)(w))
                && (forall i :: 0 <= i < m ==> PriorityOf(tools)(c.results[i]) < PriorityOf(tools)(w))
  }

  predicate TopByFreshness(c: Conflict, w: ToolResult) {
    exists m :: 0 <= m < |c.results| && c.results[m] == w
                && (forall i :: 0 <= i < |c.results| ==> c.results[i].observedAt <= w.observedAt)
                && (forall i :: 0 <= i < m ==> c.results[i].observedAt < w.observedAt)
  }

  predicate NamesACandidate(c: Conflict, reply: Outcome<Adjudication>) {
    reply.Answer? && exists i :: 0 <= i < |c.results| && c.results[i].tool == reply.value.choice
  }

  /** w is the result that `policy` picks: the top one by priority, the most
      recent one, or the model's choice if it is a candidate and the top by
      priority if it is not or if there is none. */
  predicate Picked(c: Conflict, policy: ResolvePolicy, tools: Tools, reply: Outcome<Adjudication>, w: ToolResult) {
    && w in c.results
    && (policy.ByPriority? ==> TopByPriority(c, tools, w))
    && (policy.ByFreshness? ==> TopByFreshness(c, w))
    && (policy.ByModel? ==> if NamesACandidate(c, reply) then w.tool == reply.value.choice else TopByPriority(c, tools, w))
  }

  /** What the resolution says of its reason. */
  predicate Explained(policy: ResolvePolicy, tools: Tools, reply: Outcome<Adjudication>, w: ToolResult, named: bool, why: Rationale) {
    match policy
    case ByPriority => why == HighestPriority(PriorityOf(tools)(w))
    case ByFreshness => why == MostRecent
    case ByModel =>
      if named then reply.Answer? && why == FromModel(reply.value.rationale)
      else why == FellBack(if reply.Answer? then NotACandidate(reply.value.choice) else ModelFailed, PriorityOf(tools)(w))
  }

  /** Whatever the model says or fails to say, the resolution is for this
      conflict, keeps the requested policy, names the tool of the picked result
      and says why. */
  lemma ResolutionMeaning(c: Conflict, policy: ResolvePolicy, tools: Tools, reply: Outcome<Adjudication>)
    requires c.results != []
    ensures var res := ResolveOne(c, policy, tools, reply);
            && res.subtaskId == c.subtaskId && res.capability == c.capability && res.policy == policy
            && (exists w :: Picked(c, policy, tools, reply, w) && w.tool == res.chosenTool
                            && Explained(policy, tools, reply, w, NamesACandidate(c, reply), res.rationale))
  {
    FirstMaxMeaning(PriorityOf(tools), c.results);
    FirstMaxMeaning(Freshness(), c.results);
    var top, recent := Choose(c, PriorityOf(tools)), Choose(c, Freshness());
    hide FirstMax;
    assert TopByPriority(c, tools, top);
    assert TopByFreshness(c, recent);
    assert top in c.results && recent in c.results;
    hide TopByPriority, TopByFreshness;
    var res := ResolveOne(c, policy, tools, reply);
    if policy.ByModel? && NamesACandidate(c, reply) {
      var i :| 0 <= i < |c.results| && c.results[i].tool == reply.value.choice;
      assert Picked(c, policy, tools, reply, c.results[i]);
    } else {
      assert Picked(c, policy, tools, reply, if policy.ByFreshness? then recent else top);
    }
  }

  predicate DistinctTools(rs: seq<ToolResult>) {
    forall i, j :: 0 <= i < j < |rs| ==> rs[i].tool != rs[j].tool
  }

  /** The pick is unique when the results come from distinct tools. */
  lemma OnePick(c: Conflict, policy: ResolvePolicy, tools: Tools, reply: Outcome<Adjudication>, w: ToolResult, x: ToolResult)
    requires DistinctTools(c.results)
    requires Picked(c, policy, tools, reply, w) && Picked(c, policy, tools, reply, x)
    ensures w == x
  {
    hide PriorityOf;
    var i :| 0 <= i < |c.results| && c.results[i] == w;
    var j :| 0 <= j < |c.results| && c.results[j] == x;
  }

  predicate FirstOnTop(c: Conflict, tools: Tools)
    requires c.results != []
  {
    forall i :: 0 <= i < |c.results| ==> PriorityOf(tools)(c.results[i]) <= PriorityOf(tools)(c.results[0])
  }

  /** Priority resolution, and every fallback of model adjudication, picks the
      conflict's first result exactly when that one has the highest priority of
      all -- provided the results come from distinct tools, as those of one
      subtask do. */
  lemma FirstIsPicked(c: Conflict, policy: ResolvePolicy, tools: Tools, reply: Outcome<Adjudication>)
    requires c.results != [] && DistinctTools(c.results)
    ensures var res := ResolveOne(c, policy, tools, reply);
            policy.ByPriority? || res.rationale.FellBack? ==> (res.chosenTool == c.results[0].tool <==> FirstOnTop(c, tools))
  {
    FirstMaxMeaning(PriorityOf(tools), c.results);
    hide FirstMax, PriorityOf;
  }

  function Answered(tool: string, value: Value): ToolResult {
    ToolResult("s", "c", tool, true, map["v" := value], NoFailure, 0.0, 0.0, 0.0)
  }

  /** "low" answered first, "high" answered something else. */
  function LowFirst(): Conflict {
    Conflict("s", "c", [Answered("low", Null), Answered("high", Atom(0, NotATime))])
  }

  lemma LowFirstConflicts()
    ensures Conflicts(LowFirst().results) == [LowFirst()]
  {
    var rs := LowFirst().results;
    OneSubtask(rs, "s");
    assert rs[1].data["v"] != rs[0].data["v"];
    assert ConflictsAmong(rs, ["s"][..0]) == [];
    hide Successes, OkIds;
  }

  lemma {:induction false} OneSubtask(rs: seq<ToolResult>, sid: string)
    requires rs != [] && forall r :: r in rs ==> r.ok && r.subtaskId == sid
    ensures OkIds(rs) == [sid] && Successes(rs, sid) == rs
  {
    FilterAll(OkFor(sid), rs);
    var front, last := rs[..|rs| - 1], rs[|rs| - 1];
    assert last in rs;
    if front != [] { OneSubtask(front, sid); }
    hide Filter;
  }

  /** So a rejected adjudication need not fall back to the first candidate. */
  lemma FallbackIsNotTheFirst(tools: Tools, reply: Outcome<Adjudication>)
    requires "low" in tools.vals && "high" in tools.vals && tools.vals["low"].manifest.priority < tools.vals["high"].manifest.priority
    requires reply.Answer? ==> reply.value.choice !in {"low", "high"}
    ensures Conflicts(LowFirst().results) == [LowFirst()]
    ensures var res := ResolveOne(LowFirst(), ByModel, tools, reply);
            res.rationale.FellBack? && res.chosenTool == "high" && LowFirst().results[0].tool == "low"
  {
    LowFirstConflicts();
    hide Conflicts;
    var c := LowFirst();
    FirstIsPicked(c, ByModel, tools, reply);
    FirstMaxMeaning(PriorityOf(tools), c.results);
    hide FirstMax;
  }

  /** A tool that is no longer registered weighs 0: of its result and a later one
      from a registered tool, the later one is picked exactly when that tool's
      priority is positive. */
  lemma UnregisteredWeighsZero(c: Conflict, tools: Tools, reply: Outcome<Adjudication>)
    requires |c.results| == 2 && c.results[0].tool !in tools.vals && c.results[1].tool in tools.vals
    ensures ResolveOne(c, ByPriority, tools, reply).chosenTool == c.results[1].tool <==>
            tools.vals[c.results[1].tool].manifest.priority > 0
  {
    FirstMaxMeaning(PriorityOf(tools), c.results);
    hide FirstMax;
  }
}
