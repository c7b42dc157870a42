/** The permission gate (src/orchestrator/permissions.py). */
module Permissions {
  import opened Seqs
  import opened Manifests
  import opened ToolIndex
  import opened Schedule
  import opened Router

  datatype GateResult = GateResult(allowed: seq<ToolCall>, denials: seq<Denial>)

  /** A candidate under the subtask key it was routed to. */
  datatype Keyed = Keyed(sid: string, candidate: Candidate)

  function KeyedList(sid: string, cs: seq<Candidate>): seq<Keyed> {
    seq(|cs|, i requires 0 <= i < |cs| => Keyed(sid, cs[i]))
  }

  /** The candidates of the first n keys, in the order the gate visits them. */
  function Visit(candidates: Candidates, n: nat): seq<Keyed>
    requires candidates.Valid() && n <= |candidates.keys|
  {
    if n == 0 then [] else
      var sid := candidates.keys[n - 1];
      Visit(candidates, n - 1) + KeyedList(sid, candidates.vals[sid])
  }

  function Visited(candidates: Candidates): seq<Keyed>
    requires candidates.Valid()
  {
    Visit(candidates, |candidates.keys|)
  }

  function Granted(scope: set<Scope>): Keyed -> bool {
    (k: Keyed) => k.candidate.tool.manifest.scope in scope
  }

  function Refused(scope: set<Scope>): Keyed -> bool {
    (k: Keyed) => k.candidate.tool.manifest.scope !in scope
  }

  function KeyedCall(k: Keyed): ToolCall {
    k.candidate.call
  }

  function DenialOf(k: Keyed): Denial {
    Denial(k.sid, k.candidate.call.capability, k.candidate.tool.manifest.name, k.candidate.tool.manifest.scope)
  }

  function GateList(ks: seq<Keyed>, scope: set<Scope>): GateResult {
    GateResult(Map(KeyedCall, Filter(Granted(scope), ks)), Map(DenialOf, Filter(Refused(scope), ks)))
  }

  function Gate(candidates: Candidates, scope: set<Scope>): GateResult
    requires candidates.Valid()
  {
    GateList(Visited(candidates), scope)
  }

  lemma GateSnoc(ks: seq<Keyed>, k: Keyed, scope: set<Scope>)
    ensures GateList(ks + [k], scope) ==
            if Granted(scope)(k) then GateList(ks, scope).(allowed := GateList(ks, scope).allowed + [KeyedCall(k)])
            else GateList(ks, scope).(denials := GateList(ks, scope).denials + [DenialOf(k)])
  {
    FilterSnoc(Granted(scope), ks, k);
    FilterSnoc(Refused(scope), ks, k);
  }

  method RunGate(candidates: Candidates, scope: set<Scope>) returns (r: GateResult)
    requires candidates.Valid()
    ensures r == Gate(candidates, scope)
  {
    var allowed: seq<ToolCall> := [];
    var denials: seq<Denial> := [];
    for n := 0 to |candidates.keys|
      invariant GateResult(allowed, denials) == GateList(Visit(candidates, n), scope)
    {
      var sid := candidates.keys[n];
      var pairs := candidates.vals[sid];
      ghost var before := Visit(candidates, n);
      assert before + KeyedList(sid, pairs[..0]) == before;
      for i := 0 to |pairs|
        invariant GateResult(allowed, denials) == GateList(before + KeyedList(sid, pairs[..i]), scope)
      {
        ghost var seen := before + KeyedList(sid, pairs[..i]);
        assert before + KeyedList(sid, pairs[..i + 1]) == seen + [Keyed(sid, pairs[i])];
        GateSnoc(seen, Keyed(sid, pairs[i]), scope);
        hide GateList, Visit;
        if pairs[i].tool.manifest.scope in scope {
          allowed := allowed + [pairs[i].call];
        } else {
          denials := denials + [DenialOf(Keyed(sid, pairs[i]))];
        }
      }
      assert pairs[..|pairs|] == pairs;
    }
    return GateResult(allowed, denials);
  }

  /** `fully_denied_subtasks`. */
  function FullyDenied(candidates: Candidates, gate: GateResult): set<string> {
    set sid | sid in candidates.vals && forall c :: c in gate.allowed ==> c.subtaskId != sid
  }

  // ----- What the gate means

  predicate Routed(candidates: Candidates) {
    candidates.Valid() && forall sid :: sid in candidates.vals ==> WellRouted(sid, candidates.vals[sid])
  }

  lemma {:induction false} VisitMembers(candidates: Candidates, n: nat)
    requires candidates.Valid() && n <= |candidates.keys|
    ensures forall k :: k in Visit(candidates, n) <==>
              k.sid in candidates.keys[..n] && k.sid in candidates.vals && k.candidate in candidates.vals[k.sid]
  {
    if n > 0 {
      VisitMembers(candidates, n - 1);
      var sid := candidates.keys[n - 1];
      assert candidates.keys[..n] == candidates.keys[..n - 1] + [sid];
      assert sid in Elements(candidates.keys);
      var ks := KeyedList(sid, candidates.vals[sid]);
      forall k ensures k in ks <==> k.sid == sid && k.candidate in candidates.vals[sid] {
        if k.sid == sid && k.candidate in candidates.vals[sid] {
          var i :| 0 <= i < |candidates.vals[sid]| && candidates.vals[sid][i] == k.candidate;
          assert ks[i] == k;
        }
      }
    }
  }

  lemma VisitedMembers(candidates: Candidates)
    requires candidates.Valid()
    ensures forall k :: k in Visited(candidates) <==> k.sid in candidates.vals && k.candidate in candidates.vals[k.sid]
  {
    VisitMembers(candidates, |candidates.keys|);
    assert candidates.keys[..|candidates.keys|] == candidates.keys;
    assert forall sid :: sid in candidates.vals <==> sid in Elements(candidates.keys);
  }

  lemma GateMembers(candidates: Candidates, scope: set<Scope>)
    requires Routed(candidates)
    ensures var g := Gate(candidates, scope);
            && (forall c :: c in g.allowed <==> exists k :: k in Visited(candidates) && Granted(scope)(k) && KeyedCall(k) == c)
            && (forall d :: d in g.denials <==> exists k :: k in Visited(candidates) && Refused(scope)(k) && DenialOf(k) == d)
            && |g.allowed| + |g.denials| == |Visited(candidates)|
            && Runnable(g.allowed) <= candidates.vals.Keys
  {
    var ks := Visited(candidates);
    VisitedMembers(candidates);
    hide Visited;
    FilterMembers(Granted(scope), ks);
    FilterMembers(Refused(scope), ks);
    MapMembers(KeyedCall, Filter(Granted(scope), ks));
    MapMembers(DenialOf, Filter(Refused(scope), ks));
    FilterLengths(ks, scope);
    var g := Gate(candidates, scope);
    forall c | c in g.allowed ensures c.subtaskId in candidates.vals {
      var k :| k in Filter(Granted(scope), ks) && KeyedCall(k) == c;
      assert WellRouted(k.sid, candidates.vals[k.sid]);
    }
  }

  /** Exactly the calls of candidates whose tool is in scope are allowed, and
      exactly the others are denied: a denial names the subtask, the capability
      that was asked for, the tool, and the scope it would have needed. */
  lemma GateMeaning(candidates: Candidates, scope: set<Scope>)
    requires Routed(candidates)
    ensures var g := Gate(candidates, scope);
            && (forall call :: call in g.allowed <==>
                  exists sid, c :: sid in candidates.vals && c in candidates.vals[sid] && c.tool.manifest.scope in scope && call == c.call)
            && (forall d :: d in g.denials <==>
                  exists sid, c :: sid in candidates.vals && c in candidates.vals[sid] && c.tool.manifest.scope !in scope
                    && d == Denial(sid, c.call.capability, c.tool.manifest.name, c.tool.manifest.scope))
            && |g.allowed| + |g.denials| == |Visited(candidates)|
            && Runnable(g.allowed) <= candidates.vals.Keys
  {
    GateMembers(candidates, scope);
    VisitedMembers(candidates);
    hide Gate, Visited, Routed;
    var g := Gate(candidates, scope);
    forall call
      ensures call in g.allowed <==>
              exists sid, c :: sid in candidates.vals && c in candidates.vals[sid] && c.tool.manifest.scope in scope && call == c.call
    {
      if sid, c :| sid in candidates.vals && c in candidates.vals[sid] && c.tool.manifest.scope in scope && call == c.call {
        assert Keyed(sid, c) in Visited(candidates) && Granted(scope)(Keyed(sid, c));
      }
    }
    forall d
      ensures d in g.denials <==>
              exists sid, c :: sid in candidates.vals && c in candidates.vals[sid] && c.tool.manifest.scope !in scope
                && d == Denial(sid, c.call.capability, c.tool.manifest.name, c.tool.manifest.scope)
    {
      if sid, c :| sid in candidates.vals && c in candidates.vals[sid] && c.tool.manifest.scope !in scope
                   && d == Denial(sid, c.call.capability, c.tool.manifest.name, c.tool.manifest.scope) {
        assert Keyed(sid, c) in Visited(candidates) && Refused(scope)(Keyed(sid, c));
      }
    }
  }

  lemma MapMembers<A(!new), B(!new)>(f: A -> B, s: seq<A>)
    ensures forall y :: y in Map(f, s) <==> exists x :: x in s && f(x) == y
  {
    var r := Map(f, s);
    forall x | x in s ensures f(x) in r {
      var i :| 0 <= i < |s| && s[i] == x;
      assert r[i] == f(x);
    }
  }

  lemma {:induction false} FilterLengths(ks: seq<Keyed>, scope: set<Scope>)
    ensures |Filter(Granted(scope), ks)| + |Filter(Refused(scope), ks)| == |ks|
  {
    if ks != [] { FilterLengths(ks[..|ks| - 1], scope); }
  }

  function InScope(scope: set<Scope>): Candidate -> bool {
    (c: Candidate) => c.tool.manifest.scope in scope
  }

  function CandidateCall(c: Candidate): ToolCall {
    c.call
  }

  /** The permitted calls of one candidate list, in order. */
  function Permitted(cs: seq<Candidate>, scope: set<Scope>): seq<ToolCall> {
    Map(CandidateCall, Filter(InScope(scope), cs))
  }

  lemma {:induction false} PermittedOfList(sid: string, cs: seq<Candidate>, scope: set<Scope>)
    ensures Map(KeyedCall, Filter(Granted(scope), KeyedList(sid, cs))) == Permitted(cs, scope)
  {
    if cs != [] {
      var n := |cs| - 1;
      PermittedOfList(sid, cs[..n], scope);
      assert KeyedList(sid, cs)[..n] == KeyedList(sid, cs[..n]);
    }
  }

  /** What one more key adds to the allowed calls of subtask sid. */
  lemma AllowedForKey(before: seq<Keyed>, key: string, cs: seq<Candidate>, scope: set<Scope>, sid: string)
    requires WellRouted(key, cs)
    ensures CallsFor(Map(KeyedCall, Filter(Granted(scope), before + KeyedList(key, cs))), sid) ==
            CallsFor(Map(KeyedCall, Filter(Granted(scope), before)), sid) + (if sid == key then Permitted(cs, scope) else [])
  {
    PermittedCalls(key, cs, scope);
    hide WellRouted;
    FilterAppend(Granted(scope), before, KeyedList(key, cs));
    MapAppend(KeyedCall, Filter(Granted(scope), before), Filter(Granted(scope), KeyedList(key, cs)));
    PermittedOfList(key, cs, scope);
    FilterAppend(OfSubtask(sid), Map(KeyedCall, Filter(Granted(scope), before)), Permitted(cs, scope));
    if sid == key {
      FilterAll(OfSubtask(sid), Permitted(cs, scope));
    } else {
      FilterNone(OfSubtask(sid), Permitted(cs, scope));
    }
    hide Filter, Map, Permitted, KeyedList;
  }

  function AllowedAfter(candidates: Candidates, n: nat, scope: set<Scope>): seq<ToolCall>
    requires candidates.Valid() && n <= |candidates.keys|
  {
    Map(KeyedCall, Filter(Granted(scope), Visit(candidates, n)))
  }

  lemma AllowedForStep(candidates: Candidates, n: nat, scope: set<Scope>, sid: string)
    requires Routed(candidates) && n < |candidates.keys|
    ensures var key := candidates.keys[n];
            && key in candidates.vals && key !in candidates.keys[..n]
            && CallsFor(AllowedAfter(candidates, n + 1, scope), sid) ==
               CallsFor(AllowedAfter(candidates, n, scope), sid) + (if sid == key then Permitted(candidates.vals[key], scope) else [])
  {
    var key := candidates.keys[n];
    assert key in Elements(candidates.keys);
    AllowedForKey(Visit(candidates, n), key, candidates.vals[key], scope, sid);
    hide Filter, Map, Permitted, KeyedList, WellRouted, CallsFor;
  }

  lemma {:induction false} AllowedForVisit(candidates: Candidates, n: nat, scope: set<Scope>, sid: string)
    requires Routed(candidates) && n <= |candidates.keys|
    ensures CallsFor(AllowedAfter(candidates, n, scope), sid) ==
            if sid in candidates.keys[..n] && sid in candidates.vals then Permitted(candidates.vals[sid], scope) else []
  {
    hide AllowedAfter, Permitted, CallsFor, WellRouted;
    if n == 0 {
      NothingAllowedYet(candidates, scope, sid);
    } else {
      AllowedForVisit(candidates, n - 1, scope, sid);
      AllowedForStep(candidates, n - 1, scope, sid);
      assert candidates.keys[..n] == candidates.keys[..n - 1] + [candidates.keys[n - 1]];
    }
  }

  lemma NothingAllowedYet(candidates: Candidates, scope: set<Scope>, sid: string)
    requires candidates.Valid()
    ensures CallsFor(AllowedAfter(candidates, 0, scope), sid) == []
  {
  }

  lemma PermittedCalls(sid: string, cs: seq<Candidate>, scope: set<Scope>)
    requires WellRouted(sid, cs)
    ensures forall c :: c in Permitted(cs, scope) ==> c.subtaskId == sid
    ensures Permitted(cs, scope) == [] <==> forall c :: c in cs ==> c.tool.manifest.scope !in scope
  {
    FilterMembers(InScope(scope), cs);
    MapMembers(CandidateCall, Filter(InScope(scope), cs));
    if Filter(InScope(scope), cs) != [] { assert Filter(InScope(scope), cs)[0] in Filter(InScope(scope), cs); }
  }

  /** The gate keeps, for every subtask, its permitted candidates in routed
      order, and nothing else. */
  lemma AllowedFor(candidates: Candidates, scope: set<Scope>, sid: string)
    requires Routed(candidates)
    ensures CallsFor(Gate(candidates, scope).allowed, sid) ==
            if sid in candidates.vals then Permitted(candidates.vals[sid], scope) else []
  {
    AllowedForVisit(candidates, |candidates.keys|, scope, sid);
    assert candidates.keys[..|candidates.keys|] == candidates.keys;
    assert sid in candidates.vals <==> sid in Elements(candidates.keys);
  }

  lemma AllowedCandidate(candidates: Candidates, scope: set<Scope>, sid: string)
    requires Routed(candidates) && sid in candidates.vals
    ensures (exists call :: call in Gate(candidates, scope).allowed && call.subtaskId == sid) <==>
            exists c :: c in candidates.vals[sid] && c.tool.manifest.scope in scope
  {
    var g, cs := Gate(candidates, scope), candidates.vals[sid];
    AllowedFor(candidates, scope, sid);
    FilterMembers(OfSubtask(sid), g.allowed);
    assert WellRouted(sid, cs);
    PermittedCalls(sid, cs, scope);
    hide Gate, Routed, WellRouted, Filter, Permitted;
    var mine := CallsFor(g.allowed, sid);
    if mine != [] { assert mine[0] in mine; }
    if call :| call in g.allowed && call.subtaskId == sid { assert call in mine; }
  }

  /** A subtask is fully denied exactly when it has candidates and every one of
      them is out of scope, and then each of them has left a denial. */
  lemma FullyDeniedMeaning(candidates: Candidates, scope: set<Scope>, sid: string)
    requires Routed(candidates)
    ensures var g := Gate(candidates, scope);
            && (sid in FullyDenied(candidates, g) <==>
                  sid in candidates.vals && forall c :: c in candidates.vals[sid] ==> c.tool.manifest.scope !in scope)
            && (sid in FullyDenied(candidates, g) ==> exists d :: d in g.denials && d.subtaskId == sid)
  {
    if sid in candidates.vals {
      var cs := candidates.vals[sid];
      AllowedCandidate(candidates, scope, sid);
      GateMeaning(candidates, scope);
      assert WellRouted(sid, cs) && cs[0] in cs;
      hide Visited, Gate, Routed, WellRouted;
      if cs[0].tool.manifest.scope !in scope {
        var d := Denial(sid, cs[0].call.capability, cs[0].tool.manifest.name, cs[0].tool.manifest.scope);
        assert d in Gate(candidates, scope).denials;
      }
    }
  }

  // ----- Enlarging the session scope

  predicate Subsequence<T(==)>(a: seq<T>, b: seq<T>) {
    a == [] || (b != [] &&
                ((a[|a| - 1] == b[|b| - 1] && Subsequence(a[..|a| - 1], b[..|b| - 1])) || Subsequence(a, b[..|b| - 1])))
  }

  lemma {:induction false} WeakerFilter(p: Keyed -> bool, q: Keyed -> bool, ks: seq<Keyed>)
    requires forall k :: k in ks && p(k) ==> q(k)
    ensures Subsequence(Map(KeyedCall, Filter(p, ks)), Map(KeyedCall, Filter(q, ks)))
  {
    if ks != [] {
      var n := |ks| - 1;
      var front, k := ks[..n], ks[n];
      WeakerFilter(p, q, front);
      MapSnoc(KeyedCall, Filter(p, front), k);
      MapSnoc(KeyedCall, Filter(q, front), k);
      var a, b := Map(KeyedCall, Filter(p, front)), Map(KeyedCall, Filter(q, front));
      if p(k) {
        assert (a + [KeyedCall(k)])[..|a|] == a && (b + [KeyedCall(k)])[..|b|] == b;
      } else if q(k) {
        assert Filter(p, ks) == Filter(p, front);
        assert (b + [KeyedCall(k)])[..|b|] == b;
      } else {
        assert Filter(p, ks) == Filter(p, front) && Filter(q, ks) == Filter(q, front);
      }
    }
  }

  /** Granting more scope keeps every allowed call, in order, and can only
      shrink the set of fully denied subtasks. */
  lemma MoreScope(candidates: Candidates, scope: set<Scope>, larger: set<Scope>)
    requires Routed(candidates) && scope <= larger
    ensures Subsequence(Gate(candidates, scope).allowed, Gate(candidates, larger).allowed)
    ensures FullyDenied(candidates, Gate(candidates, larger)) <= FullyDenied(candidates, Gate(candidates, scope))
  {
    WeakerFilter(Granted(scope), Granted(larger), Visited(candidates));
    hide Gate;
    forall sid | sid in FullyDenied(candidates, Gate(candidates, larger))
      ensures sid in FullyDenied(candidates, Gate(candidates, scope))
    {
      FullyDeniedMeaning(candidates, scope, sid);
      FullyDeniedMeaning(candidates, larger, sid);
    }
  }

  // ----- Routing and gating together

  lemma RoutedByRoute(subtasks: seq<Subtask>, tools: Tools, mode: RouterMode)
    requires RegistryOk(tools)
    ensures Routed(Route(subtasks, tools, mode).candidates)
  {
    RouteMeaning(subtasks, tools, mode);
  }

  /** call asks for what subtask k asks for, of a tool that offered it, in scope,
      when the plan was routed. */
  predicate AllowedFrom(subtasks: seq<Subtask>, tools: Tools, scope: set<Scope>, k: nat, call: ToolCall)
    requires tools.Valid()
  {
    && LastRoutable(subtasks, tools, k)
    && call == ToolCall(subtasks[k].id, subtasks[k].capability, call.tool, subtasks[k].args)
    && call.tool in tools.vals
    && tools.vals[call.tool].manifest.scope in scope
    && call.capability in tools.vals[call.tool].manifest.capabilities
  }

  /** Every allowed call carries the id, capability and arguments of the last
      routable subtask under its id, and names a tool that offered the capability,
      in scope, when it was routed. */
  lemma AllowedInScope(subtasks: seq<Subtask>, tools: Tools, mode: RouterMode, scope: set<Scope>, call: ToolCall) returns (k: nat)
    requires RegistryOk(tools) && call in Gate(Route(subtasks, tools, mode).candidates, scope).allowed
    ensures AllowedFrom(subtasks, tools, scope, k, call)
  {
    var c := Route(subtasks, tools, mode).candidates;
    RouteMeaning(subtasks, tools, mode);
    RoutedByRoute(subtasks, tools, mode);
    GateMeaning(c, scope);
    hide Gate, Visited, Routed, Route, Routable, RoutableIds, UnroutableIds;
    var sid, x :| sid in c.vals && x in c.vals[sid] && x.tool.manifest.scope in scope && call == x.call;
    k :| Offered(subtasks, tools, mode, k, c.vals[sid]) && subtasks[k].id == sid;
    OfferedCandidate(subtasks, tools, mode, k, c.vals[sid], x);
  }

  lemma OfferedCandidate(subtasks: seq<Subtask>, tools: Tools, mode: RouterMode, k: nat, cs: seq<Candidate>, x: Candidate)
    requires RegistryOk(tools) && Offered(subtasks, tools, mode, k, cs) && x in cs
    ensures x.call == ToolCall(subtasks[k].id, subtasks[k].capability, x.call.tool, subtasks[k].args)
    ensures x.call.tool in tools.vals && tools.vals[x.call.tool] == x.tool
    ensures x.call.capability in x.tool.manifest.capabilities
  {
    var found := FindByCapability(tools, subtasks[k].capability);
    FindByCapabilityMeaning(tools, subtasks[k].capability);
    hide FindByCapability;
    var i :| 0 <= i < |cs| && cs[i] == x;
    assert found[i] in found;
  }

  /** With unique ids every subtask is exactly one of unroutable, fully denied
      and runnable. */
  lemma Trichotomy(plan: Plan, tools: Tools, mode: RouterMode, scope: set<Scope>, st: Subtask)
    requires RegistryOk(tools) && UniqueIds(plan) && st in plan.subtasks
    ensures var r := Route(plan.subtasks, tools, mode);
            var g := Gate(r.candidates, scope);
            var a, b, c := st.id in r.unroutable, st.id in FullyDenied(r.candidates, g), st.id in Runnable(g.allowed);
            (a || b || c) && !(a && b) && !(a && c) && !(b && c)
  {
    UniqueRoute(plan, tools, mode, st);
    RoutedByRoute(plan.subtasks, tools, mode);
    var r := Route(plan.subtasks, tools, mode);
    hide Routed, Route, Routable, CandidatesFor;
    GateMembers(r.candidates, scope);
    hide Gate;
  }

  lemma CandidatesOfLast(subtasks: seq<Subtask>, tools: Tools, mode: RouterMode, k: nat)
    requires tools.Valid() && LastRoutable(subtasks, tools, k)
    ensures var c := Route(subtasks, tools, mode).candidates;
            subtasks[k].id in c.vals && c.vals[subtasks[k].id] == CandidatesFor(tools, subtasks[k], mode)
  {
    RouteIds(subtasks, tools, mode);
    assert subtasks[k] in subtasks;
    var m := RouteServes(subtasks, tools, mode, subtasks[k].id);
    hide Routable, CandidatesFor, Route;
    SameLastRoutable(subtasks, tools, k, m);
  }

  /** For a plan with any ids, take the last routable subtask under an id.  In
      ALL mode that id is fully denied exactly when the scopes the planner was
      shown for the subtask's capability are disjoint from the session's.  In
      PRIORITY mode only the top tool's scope decides, even if a lower one is
      granted. */
  lemma DeniedByMode(subtasks: seq<Subtask>, tools: Tools, scope: set<Scope>, k: nat)
    requires RegistryOk(tools) && LastRoutable(subtasks, tools, k)
    ensures EntryFor(tools.Values(), subtasks[k].capability).Some?
    ensures var c := Route(subtasks, tools, All).candidates;
            subtasks[k].id in FullyDenied(c, Gate(c, scope)) <==> EntryFor(tools.Values(), subtasks[k].capability).value.scopes !! scope
    ensures var c := Route(subtasks, tools, Priority).candidates;
            subtasks[k].id in FullyDenied(c, Gate(c, scope)) <==> FindByCapability(tools, subtasks[k].capability)[0].manifest.scope !in scope
  {
    var st := subtasks[k];
    CatalogAgreesWithRouting(tools, st.capability);
    var found := FindByCapability(tools, st.capability);
    hide FindByCapability, EntryFor;
    forall mode: RouterMode
      ensures var c := Route(subtasks, tools, mode).candidates;
              st.id in FullyDenied(c, Gate(c, scope)) <==> forall t :: t in Chosen(tools, st.capability, mode) ==> t.manifest.scope !in scope
    {
      var c := Route(subtasks, tools, mode).candidates;
      CandidatesOfLast(subtasks, tools, mode, k);
      RoutedByRoute(subtasks, tools, mode);
      hide Route, Routed, Gate, Chosen, LastRoutable;
      FullyDeniedMeaning(c, scope, st.id);
      var cs, chosen := c.vals[st.id], Chosen(tools, st.capability, mode);
      assert |cs| == |chosen|;
      forall i | 0 <= i < |chosen| ensures cs[i].tool == chosen[i] && cs[i] in cs && chosen[i] in chosen {}
    }
    assert Chosen(tools, st.capability, Priority) == [found[0]];
    assert ScopesOf(found) !! scope <==> forall t :: t in found ==> t.manifest.scope !in scope;
  }
}
