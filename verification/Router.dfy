/** Capability routing (src/orchestrator/router.py). */
module Router {
  import opened Seqs
  import opened OrderedDict
  import opened Manifests
  import opened ToolIndex

  datatype RouterMode = All | Priority

  datatype Candidate = Candidate(call: ToolCall, tool: RegisteredTool)

  type Candidates = Dict<string, seq<Candidate>>

  datatype RouteResult = RouteResult(candidates: Candidates, unroutable: seq<string>)

  function Chosen(tools: Tools, cap: string, mode: RouterMode): seq<RegisteredTool>
    requires tools.Valid()
  {
    var matches := FindByCapability(tools, cap);
    if mode.All? || matches == [] then matches else matches[..1]
  }

  function CallOf(st: Subtask, t: RegisteredTool): ToolCall {
    ToolCall(st.id, st.capability, t.manifest.name, st.args)
  }

  function CandidatesFor(tools: Tools, st: Subtask, mode: RouterMode): seq<Candidate>
    requires tools.Valid()
  {
    var chosen := Chosen(tools, st.capability, mode);
    seq(|chosen|, i requires 0 <= i < |chosen| => Candidate(CallOf(st, chosen[i]), chosen[i]))
  }

  predicate Routable(tools: Tools, st: Subtask)
    requires tools.Valid()
  {
    FindByCapability(tools, st.capability) != []
  }

  function Route(subtasks: seq<Subtask>, tools: Tools, mode: RouterMode): (r: RouteResult)
    requires tools.Valid()
    ensures r.candidates.Valid()
  {
    if subtasks == [] then RouteResult(Empty(), []) else
      var r := Route(subtasks[..|subtasks| - 1], tools, mode);
      var st := subtasks[|subtasks| - 1];
      if Routable(tools, st) then r.(candidates := r.candidates.Put(st.id, CandidatesFor(tools, st, mode)))
      else r.(unroutable := r.unroutable + [st.id])
  }

  method RoutePlan(plan: Plan, tools: Tools, mode: RouterMode) returns (r: RouteResult)
    requires tools.Valid()
    ensures r == Route(plan.subtasks, tools, mode)
  {
    var subtasks := plan.subtasks;
    var candidates: Candidates := Empty();
    var unroutable: seq<string> := [];
    for i := 0 to |subtasks|
      invariant RouteResult(candidates, unroutable) == Route(subtasks[..i], tools, mode)
    {
      assert subtasks[..i + 1][..i] == subtasks[..i];
      var st := subtasks[i];
      if FindByCapability(tools, st.capability) == [] {
        unroutable := unroutable + [st.id];
      } else {
        candidates := candidates.Put(st.id, CandidatesFor(tools, st, mode));
      }
    }
    assert subtasks[..|subtasks|] == subtasks;
    return RouteResult(candidates, unroutable);
  }

  // ----- What routing means

  predicate LastRoutable(subtasks: seq<Subtask>, tools: Tools, k: nat)
    requires tools.Valid()
  {
    && k < |subtasks| && Routable(tools, subtasks[k])
    && forall m :: k < m < |subtasks| && subtasks[m].id == subtasks[k].id ==> !Routable(tools, subtasks[m])
  }

  lemma SameLastRoutable(subtasks: seq<Subtask>, tools: Tools, k: nat, m: nat)
    requires tools.Valid() && LastRoutable(subtasks, tools, k) && LastRoutable(subtasks, tools, m) && subtasks[k].id == subtasks[m].id
    ensures k == m
  {
  }

  predicate WellRouted(sid: string, cs: seq<Candidate>) {
    && cs != []
    && (forall c :: c in cs ==> c.call.subtaskId == sid && c.call.tool == c.tool.manifest.name)
    && (forall i, j :: 0 <= i < j < |cs| ==> cs[i].tool.manifest.name != cs[j].tool.manifest.name)
  }

  lemma CandidatesWellRouted(tools: Tools, st: Subtask, mode: RouterMode)
    requires RegistryOk(tools) && Routable(tools, st)
    ensures WellRouted(st.id, CandidatesFor(tools, st, mode))
    ensures forall c :: c in CandidatesFor(tools, st, mode) ==> c.tool in FindByCapability(tools, st.capability)
  {
    FindByCapabilityMeaning(tools, st.capability);
    hide FindByCapability;
  }

  function RoutableIds(subtasks: seq<Subtask>, tools: Tools): set<string>
    requires tools.Valid()
  {
    set st | st in subtasks && Routable(tools, st) :: st.id
  }

  function UnroutableIds(subtasks: seq<Subtask>, tools: Tools): set<string>
    requires tools.Valid()
  {
    set st | st in subtasks && !Routable(tools, st) :: st.id
  }

  lemma OneMoreId(front: seq<Subtask>, st: Subtask, tools: Tools)
    requires tools.Valid()
    ensures RoutableIds(front + [st], tools) == RoutableIds(front, tools) + (if Routable(tools, st) then {st.id} else {})
    ensures UnroutableIds(front + [st], tools) == UnroutableIds(front, tools) + (if Routable(tools, st) then {} else {st.id})
  {
    hide Routable;
    assert forall x :: x in front + [st] <==> x in front || x == st;
  }

  lemma RouteSnoc(front: seq<Subtask>, st: Subtask, tools: Tools, mode: RouterMode)
    requires tools.Valid()
    ensures var r := Route(front, tools, mode);
            Route(front + [st], tools, mode) ==
            if Routable(tools, st) then r.(candidates := r.candidates.Put(st.id, CandidatesFor(tools, st, mode)))
            else r.(unroutable := r.unroutable + [st.id])
  {
    hide Routable, CandidatesFor;
    assert (front + [st])[..|front + [st]| - 1] == front;
  }

  lemma {:induction false} RouteIds(subtasks: seq<Subtask>, tools: Tools, mode: RouterMode)
    requires tools.Valid()
    ensures Route(subtasks, tools, mode).candidates.vals.Keys == RoutableIds(subtasks, tools)
    ensures Elements(Route(subtasks, tools, mode).unroutable) == UnroutableIds(subtasks, tools)
  {
    if subtasks != [] {
      var front, st := subtasks[..|subtasks| - 1], subtasks[|subtasks| - 1];
      assert subtasks == front + [st];
      RouteIds(front, tools, mode);
      OneMoreId(front, st, tools);
      RouteSnoc(front, st, tools, mode);
      hide Route, Routable, CandidatesFor, RoutableIds, UnroutableIds;
    }
  }

  /** The subtask whose candidates a key holds. */
  ghost predicate Serves(subtasks: seq<Subtask>, tools: Tools, mode: RouterMode, k: nat, sid: string, cs: seq<Candidate>)
    requires tools.Valid()
  {
    LastRoutable(subtasks, tools, k) && subtasks[k].id == sid && cs == CandidatesFor(tools, subtasks[k], mode)
  }

  lemma {:induction false} RouteServes(subtasks: seq<Subtask>, tools: Tools, mode: RouterMode, sid: string) returns (k: nat)
    requires tools.Valid() && sid in Route(subtasks, tools, mode).candidates.vals
    ensures Serves(subtasks, tools, mode, k, sid, Route(subtasks, tools, mode).candidates.vals[sid])
  {
    var n := |subtasks| - 1;
    var front, st := subtasks[..n], subtasks[n];
    hide Routable, CandidatesFor, FindByCapability;
    RouteStep(front, st, tools, mode, sid);
    assert subtasks == front + [st];
    hide Route;
    if sid == st.id && Routable(tools, st) {
      k := n;
    } else {
      k := RouteServes(front, tools, mode, sid);
      ServesLater(front, st, tools, mode, k, sid, Route(front, tools, mode).candidates.vals[sid]);
    }
  }

  lemma RouteStep(front: seq<Subtask>, st: Subtask, tools: Tools, mode: RouterMode, sid: string)
    requires tools.Valid() && sid in Route(front + [st], tools, mode).candidates.vals
    ensures var cs := Route(front + [st], tools, mode).candidates.vals[sid];
            if sid == st.id && Routable(tools, st) then cs == CandidatesFor(tools, st, mode)
            else sid in Route(front, tools, mode).candidates.vals && cs == Route(front, tools, mode).candidates.vals[sid]
  {
    RouteSnoc(front, st, tools, mode);
    hide Route, Routable, CandidatesFor;
  }

  lemma ServesLater(front: seq<Subtask>, st: Subtask, tools: Tools, mode: RouterMode, k: nat, sid: string, cs: seq<Candidate>)
    requires tools.Valid() && Serves(front, tools, mode, k, sid, cs) && !(sid == st.id && Routable(tools, st))
    ensures Serves(front + [st], tools, mode, k, sid, cs)
  {
    hide Routable, CandidatesFor, FindByCapability;
  }

  /** cs are the candidates subtask k gets: a call for each tool chosen for it, in
      lookup order -- all of them, or in PRIORITY mode the first -- carrying the
      subtask's id, capability and arguments. */
  ghost predicate Offered(subtasks: seq<Subtask>, tools: Tools, mode: RouterMode, k: nat, cs: seq<Candidate>)
    requires tools.Valid()
  {
    LastRoutable(subtasks, tools, k) &&
    var st := subtasks[k];
    var found := FindByCapability(tools, st.capability);
    |cs| == (if mode.All? then |found| else 1)
    && forall i :: 0 <= i < |cs| ==> cs[i] == Candidate(ToolCall(st.id, st.capability, found[i].manifest.name, st.args), found[i])
  }

  lemma ServedIsOffered(subtasks: seq<Subtask>, tools: Tools, mode: RouterMode, k: nat, sid: string, cs: seq<Candidate>)
    requires tools.Valid() && Serves(subtasks, tools, mode, k, sid, cs)
    ensures Offered(subtasks, tools, mode, k, cs)
  {
    hide FindByCapability;
  }

  /** A subtask id is a candidate key exactly when some subtask with that id is
      routable; its candidates are those of the last such subtask, are never
      empty, all carry that id and name distinct tools.  The unroutable list
      holds exactly the ids of subtasks no tool can serve. */
  lemma RouteMeaning(subtasks: seq<Subtask>, tools: Tools, mode: RouterMode)
    requires RegistryOk(tools)
    ensures var r := Route(subtasks, tools, mode);
            && r.candidates.vals.Keys == RoutableIds(subtasks, tools)
            && Elements(r.unroutable) == UnroutableIds(subtasks, tools)
            && (forall sid :: sid in r.candidates.vals ==>
                  WellRouted(sid, r.candidates.vals[sid])
                  && exists k: nat :: Offered(subtasks, tools, mode, k, r.candidates.vals[sid]) && subtasks[k].id == sid)
  {
    RouteIds(subtasks, tools, mode);
    var r := Route(subtasks, tools, mode);
    hide Routable, CandidatesFor, RoutableIds, UnroutableIds, Route, WellRouted, Offered;
    forall sid | sid in r.candidates.vals
      ensures WellRouted(sid, r.candidates.vals[sid])
      ensures exists k: nat :: Offered(subtasks, tools, mode, k, r.candidates.vals[sid]) && subtasks[k].id == sid
    {
      var k := RouteServes(subtasks, tools, mode, sid);
      CandidatesWellRouted(tools, subtasks[k], mode);
      ServedIsOffered(subtasks, tools, mode, k, sid, r.candidates.vals[sid]);
    }
  }

  /** With unique ids, each subtask keeps its own candidates and is either
      routable or unroutable, not both. */
  lemma UniqueRoute(plan: Plan, tools: Tools, mode: RouterMode, st: Subtask)
    requires RegistryOk(tools) && UniqueIds(plan) && st in plan.subtasks
    ensures var r := Route(plan.subtasks, tools, mode);
            && (st.id in r.candidates.vals <==> Routable(tools, st))
            && (st.id in r.unroutable <==> !Routable(tools, st))
            && (Routable(tools, st) ==> r.candidates.vals[st.id] == CandidatesFor(tools, st, mode))
  {
    RouteIds(plan.subtasks, tools, mode);
    var r := Route(plan.subtasks, tools, mode);
    hide Routable, CandidatesFor, Route;
    var i :| 0 <= i < |plan.subtasks| && plan.subtasks[i] == st;
    forall x | x in plan.subtasks && x.id == st.id ensures x == st {
      var j :| 0 <= j < |plan.subtasks| && plan.subtasks[j] == x;
    }
    assert st.id in r.unroutable <==> st.id in Elements(r.unroutable);
    if st.id in r.candidates.vals {
      var k := RouteServes(plan.subtasks, tools, mode, st.id);
      assert plan.subtasks[k] in plan.subtasks;
    }
  }

  /** Without uniqueness an id can be routable and unroutable at once: exactly
      when the plan has subtasks of both kinds under it. */
  lemma DuplicateIdsCanBeBoth(plan: Plan, tools: Tools, mode: RouterMode, sid: string)
    requires RegistryOk(tools)
    ensures var r := Route(plan.subtasks, tools, mode);
            (sid in r.candidates.vals && sid in r.unroutable) <==>
            exists a, b :: a in plan.subtasks && b in plan.subtasks && a.id == sid == b.id && Routable(tools, a) && !Routable(tools, b)
  {
    RouteIds(plan.subtasks, tools, mode);
    var r := Route(plan.subtasks, tools, mode);
    hide Routable, Route;
    assert sid in r.unroutable <==> sid in Elements(r.unroutable);
  }

  function CanRoute(tools: Tools): Subtask -> bool
    requires tools.Valid()
  {
    (st: Subtask) => Routable(tools, st)
  }

  function CannotRoute(tools: Tools): Subtask -> bool
    requires tools.Valid()
  {
    (st: Subtask) => !Routable(tools, st)
  }

  function IdOf(st: Subtask): string {
    st.id
  }

  lemma {:induction false} UnroutableInOrder(subtasks: seq<Subtask>, tools: Tools, mode: RouterMode)
    requires tools.Valid()
    ensures Route(subtasks, tools, mode).unroutable == Map(IdOf, Filter(CannotRoute(tools), subtasks))
  {
    if subtasks != [] {
      var front, st := subtasks[..|subtasks| - 1], subtasks[|subtasks| - 1];
      assert subtasks == front + [st];
      UnroutableInOrder(front, tools, mode);
      RouteSnoc(front, st, tools, mode);
      FilterSnoc(CannotRoute(tools), front, st);
      hide Route, Filter, Routable, CandidatesFor;
    }
  }

  lemma KeysSnoc(front: seq<Subtask>, st: Subtask, tools: Tools, mode: RouterMode)
    requires tools.Valid() && Route(front, tools, mode).candidates.keys == Firsts(Map(IdOf, Filter(CanRoute(tools), front)))
    ensures Route(front + [st], tools, mode).candidates.keys == Firsts(Map(IdOf, Filter(CanRoute(tools), front + [st])))
  {
    var r, ids := Route(front, tools, mode), Map(IdOf, Filter(CanRoute(tools), front));
    RouteSnoc(front, st, tools, mode);
    FirstsMeaning(ids);
    assert st.id in r.candidates.vals <==> st.id in Elements(r.candidates.keys);
    FilterSnoc(CanRoute(tools), front, st);
    MapSnoc(IdOf, Filter(CanRoute(tools), front), st);
    hide Route, Routable, CandidatesFor, Filter, Map;
    if CanRoute(tools)(st) {
      assert (ids + [st.id])[..|ids|] == ids;
      assert Map(IdOf, Filter(CanRoute(tools), front + [st])) == ids + [st.id];
    } else {
      assert Filter(CanRoute(tools), front + [st]) == Filter(CanRoute(tools), front);
    }
  }

  lemma {:induction false} KeysInOrder(subtasks: seq<Subtask>, tools: Tools, mode: RouterMode)
    requires tools.Valid()
    ensures Route(subtasks, tools, mode).candidates.keys == Firsts(Map(IdOf, Filter(CanRoute(tools), subtasks)))
  {
    if subtasks != [] {
      var front, st := subtasks[..|subtasks| - 1], subtasks[|subtasks| - 1];
      assert subtasks == front + [st];
      KeysInOrder(front, tools, mode);
      KeysSnoc(front, st, tools, mode);
    }
  }

  lemma {:induction false} FilteredIdsDistinct(p: Subtask -> bool, subtasks: seq<Subtask>)
    requires Distinct(Map(IdOf, subtasks))
    ensures Distinct(Map(IdOf, Filter(p, subtasks)))
  {
    if subtasks != [] {
      var k := |subtasks| - 1;
      var front := subtasks[..k];
      assert Map(IdOf, front) == Map(IdOf, subtasks)[..k];
      FilteredIdsDistinct(p, front);
      FilterMembers(p, front);
      var kept := Filter(p, front);
      MapSnoc(IdOf, kept, subtasks[k]);
      forall i | 0 <= i < |kept| ensures kept[i].id != subtasks[k].id {
        assert kept[i] in front;
        var m :| 0 <= m < k && front[m] == kept[i];
        assert Map(IdOf, subtasks)[m] != Map(IdOf, subtasks)[k];
      }
    }
  }

  /** Plan order is kept: the unroutable ids appear as in the plan, and the
      candidate keys in the order in which their ids first have a routable
      bearer -- which with unique ids is plan order. */
  lemma RouteKeepsOrder(subtasks: seq<Subtask>, tools: Tools, mode: RouterMode)
    requires tools.Valid()
    ensures Route(subtasks, tools, mode).unroutable == Map(IdOf, Filter(CannotRoute(tools), subtasks))
    ensures Route(subtasks, tools, mode).candidates.keys == Firsts(Map(IdOf, Filter(CanRoute(tools), subtasks)))
    ensures UniqueIds(Plan(subtasks, "")) ==>
              Route(subtasks, tools, mode).candidates.keys == Map(IdOf, Filter(CanRoute(tools), subtasks))
  {
    UnroutableInOrder(subtasks, tools, mode);
    KeysInOrder(subtasks, tools, mode);
    hide Route, Filter;
    if UniqueIds(Plan(subtasks, "")) {
      FilteredIdsDistinct(CanRoute(tools), subtasks);
      FirstsOfDistinct(Map(IdOf, Filter(CanRoute(tools), subtasks)));
    }
  }
}
