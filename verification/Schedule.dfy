/** How `run` (src/orchestrator/executor.py) turns a plan and its allowed calls
    into batches of calls, before anything is executed. */
module Schedule {
  import opened Seqs
  import opened OrderedDict
  import opened Manifests
  import opened StringOrder
  import opened Layering
  import opened TopoBatches

  function OfSubtask(sid: string): ToolCall -> bool {
    (c: ToolCall) => c.subtaskId == sid
  }

  function OfAny(sids: set<string>): ToolCall -> bool {
    (c: ToolCall) => c.subtaskId in sids
  }

  function CallsFor(calls: seq<ToolCall>, sid: string): seq<ToolCall> {
    Filter(OfSubtask(sid), calls)
  }

  function Runnable(calls: seq<ToolCall>): set<string> {
    set c | c in calls :: c.subtaskId
  }

  function Ids(subtasks: seq<Subtask>): set<string> {
    set st | st in subtasks :: st.id
  }

  /** The dependency dict: only edges between runnable subtasks survive, and a
      repeated id takes the dependencies of its last bearer. */
  function DepsOf(subtasks: seq<Subtask>, runnable: set<string>): (d: Deps)
    ensures d.Valid()
  {
    if subtasks == [] then Empty() else
      var st := subtasks[|subtasks| - 1];
      var d := DepsOf(subtasks[..|subtasks| - 1], runnable);
      if st.id in runnable then d.Put(st.id, Filter(Within(runnable), st.dependsOn)) else d
  }

  function CallsOfBatch(calls: seq<ToolCall>, ids: seq<string>): seq<ToolCall> {
    if ids == [] then [] else
      CallsOfBatch(calls, ids[..|ids| - 1]) + CallsFor(calls, ids[|ids| - 1])
  }

  function BatchIds(plan: Plan, calls: seq<ToolCall>): seq<seq<string>> {
    Batches(DepsOf(plan.subtasks, Runnable(calls)))
  }

  function BatchCalls(plan: Plan, calls: seq<ToolCall>): seq<seq<ToolCall>> {
    var ids := BatchIds(plan, calls);
    seq(|ids|, i requires 0 <= i < |ids| => CallsOfBatch(calls, ids[i]))
  }

  // ----- The loops

  predicate Grouped(groups: Dict<string, seq<ToolCall>>, calls: seq<ToolCall>) {
    && groups.Valid() && groups.vals.Keys == Runnable(calls)
    && forall sid :: sid in groups.vals ==> groups.vals[sid] == CallsFor(calls, sid)
  }

  lemma RunnableSnoc(calls: seq<ToolCall>, call: ToolCall)
    ensures Runnable(calls + [call]) == Runnable(calls) + {call.subtaskId}
  {
    assert forall c :: c in calls + [call] <==> c in calls || c == call;
  }

  lemma OneMoreCall(calls: seq<ToolCall>, call: ToolCall, sid: string)
    ensures CallsFor(calls + [call], sid) == CallsFor(calls, sid) + (if sid == call.subtaskId then [call] else [])
    ensures sid !in Runnable(calls) ==> CallsFor(calls, sid) == []
    ensures Runnable(calls + [call]) == Runnable(calls) + {call.subtaskId}
  {
    FilterSnoc(OfSubtask(sid), calls, call);
    if sid !in Runnable(calls) { FilterNone(OfSubtask(sid), calls); }
    hide Filter;
    RunnableSnoc(calls, call);
  }

  lemma GroupOne(groups: Dict<string, seq<ToolCall>>, calls: seq<ToolCall>, call: ToolCall)
    requires Grouped(groups, calls)
    ensures var was := if call.subtaskId in groups.vals then groups.vals[call.subtaskId] else [];
            Grouped(groups.Put(call.subtaskId, was + [call]), calls + [call])
  {
    hide CallsFor, Runnable;
    OneMoreCall(calls, call, call.subtaskId);
    forall sid ensures CallsFor(calls + [call], sid) == CallsFor(calls, sid) + (if sid == call.subtaskId then [call] else []) {
      OneMoreCall(calls, call, sid);
    }
  }

  method GroupCalls(calls: seq<ToolCall>) returns (groups: Dict<string, seq<ToolCall>>)
    ensures Grouped(groups, calls)
  {
    groups := Empty();
    for i := 0 to |calls|
      invariant Grouped(groups, calls[..i])
    {
      var call := calls[i];
      assert calls[..i + 1] == calls[..i] + [call];
      GroupOne(groups, calls[..i], call);
      hide Grouped;
      groups := groups.Put(call.subtaskId, (if call.subtaskId in groups.vals then groups.vals[call.subtaskId] else []) + [call]);
    }
    assert calls[..|calls|] == calls;
  }

  method BuildDeps(subtasks: seq<Subtask>, runnable: set<string>) returns (deps: Deps)
    ensures deps == DepsOf(subtasks, runnable)
  {
    hide Filter;
    deps := Empty();
    for i := 0 to |subtasks|
      invariant deps == DepsOf(subtasks[..i], runnable)
    {
      assert subtasks[..i + 1][..i] == subtasks[..i];
      var st := subtasks[i];
      if st.id in runnable {
        deps := deps.Put(st.id, Filter(Within(runnable), st.dependsOn));
      }
    }
    assert subtasks[..|subtasks|] == subtasks;
  }

  method GatherBatch(calls: seq<ToolCall>, groups: Dict<string, seq<ToolCall>>, ids: seq<string>) returns (batch: seq<ToolCall>)
    requires Grouped(groups, calls)
    requires forall sid :: sid in ids ==> sid in Runnable(calls)
    ensures batch == CallsOfBatch(calls, ids)
  {
    hide Filter;
    batch := [];
    for j := 0 to |ids|
      invariant batch == CallsOfBatch(calls, ids[..j])
    {
      assert ids[..j + 1][..j] == ids[..j];
      batch := batch + groups.vals[ids[j]];
    }
    assert ids[..|ids|] == ids;
  }

  lemma ScheduledSubtasksRun(plan: Plan, calls: seq<ToolCall>, i: nat)
    requires i < |BatchIds(plan, calls)|
    ensures forall sid :: sid in BatchIds(plan, calls)[i] ==> sid in Runnable(calls)
  {
    DepsMeaning(plan.subtasks, Runnable(calls));
    BatchesMeaning(DepsOf(plan.subtasks, Runnable(calls)));
    FlattenContains(BatchIds(plan, calls), i);
  }

  method PlanBatches(plan: Plan, calls: seq<ToolCall>) returns (batchCalls: seq<seq<ToolCall>>)
    ensures batchCalls == BatchCalls(plan, calls)
  {
    hide Batches, CallsOfBatch, DepsOf, Flatten, Elements, Filter;
    var groups := GroupCalls(calls);
    var runnable := groups.vals.Keys;
    assert runnable == Runnable(calls);
    hide Grouped;
    var deps := BuildDeps(plan.subtasks, runnable);
    var groupIds := ComputeBatches(deps);
    assert groupIds == BatchIds(plan, calls);
    hide BatchIds;
    batchCalls := [];
    for i := 0 to |groupIds|
      invariant |batchCalls| == i && forall j :: 0 <= j < i ==> batchCalls[j] == CallsOfBatch(calls, groupIds[j])
    {
      ScheduledSubtasksRun(plan, calls, i);
      var batch := GatherBatch(calls, groups, groupIds[i]);
      batchCalls := batchCalls + [batch];
    }
  }

  lemma FlattenContains<T(!new)>(ss: seq<seq<T>>, i: nat)
    requires i < |ss|
    ensures forall x :: x in ss[i] ==> x in Flatten(ss)
  {
    forall x | x in ss[i] ensures x in Flatten(ss) { FlattenMember(ss, x); }
  }

  // ----- What the dependency graph is

  /** k is the last subtask carrying its id. */
  predicate LastBearer(subtasks: seq<Subtask>, k: nat) {
    k < |subtasks| && forall m :: k < m < |subtasks| ==> subtasks[m].id != subtasks[k].id
  }

  lemma {:induction false} DepsMeaning(subtasks: seq<Subtask>, runnable: set<string>)
    ensures DepsOf(subtasks, runnable).vals.Keys == Ids(subtasks) * runnable
    ensures forall k: nat :: LastBearer(subtasks, k) && subtasks[k].id in runnable ==>
              DepsOf(subtasks, runnable).vals[subtasks[k].id] == Filter(Within(runnable), subtasks[k].dependsOn)
  {
    if subtasks != [] {
      var n := |subtasks| - 1;
      var front, st := subtasks[..n], subtasks[n];
      assert subtasks == front + [st];
      DepsMeaning(front, runnable);
      assert Ids(subtasks) == Ids(front) + {st.id};
      forall k: nat | LastBearer(subtasks, k) && subtasks[k].id in runnable
        ensures DepsOf(subtasks, runnable).vals[subtasks[k].id] == Filter(Within(runnable), subtasks[k].dependsOn)
      {
        if k < n {
          assert subtasks[n].id != subtasks[k].id;
          assert LastBearer(front, k) && front[k] == subtasks[k];
        }
      }
    }
  }

  /** The graph `run` schedules. */
  function RunGraph(plan: Plan, calls: seq<ToolCall>): Graph {
    GraphOf(DepsOf(plan.subtasks, Runnable(calls)))
  }

  /** With unique ids: the nodes are the runnable subtasks of the plan and the
      edges their declared dependencies on runnable subtasks, one by one: a
      dependency on a subtask that cannot run is dropped and not replaced by
      that subtask's own dependencies. */
  lemma RunGraphMeaning(plan: Plan, calls: seq<ToolCall>)
    requires UniqueIds(plan)
    ensures RunGraph(plan, calls).Keys == Ids(plan.subtasks) * Runnable(calls)
    ensures forall st :: st in plan.subtasks && st.id in Runnable(calls) ==>
              RunGraph(plan, calls)[st.id] == Elements(st.dependsOn) * Runnable(calls)
  {
    var r := Runnable(calls);
    DepsMeaning(plan.subtasks, r);
    forall st | st in plan.subtasks && st.id in r ensures RunGraph(plan, calls)[st.id] == Elements(st.dependsOn) * r {
      var k: nat :| k < |plan.subtasks| && plan.subtasks[k] == st;
      assert LastBearer(plan.subtasks, k);
      FilterMembers(Within(r), st.dependsOn);
    }
  }

  /** When every call belongs to a subtask of the plan, the graph is closed. */
  lemma {:induction false} RunGraphClosed(plan: Plan, calls: seq<ToolCall>)
    requires Runnable(calls) <= Ids(plan.subtasks)
    ensures Closed(RunGraph(plan, calls)) && RunGraph(plan, calls).Keys == Runnable(calls)
  {
    DepsMeaning(plan.subtasks, Runnable(calls));
    OnlyRunnableDeps(plan.subtasks, Runnable(calls));
  }

  lemma {:induction false} OnlyRunnableDeps(subtasks: seq<Subtask>, runnable: set<string>)
    ensures forall n :: n in DepsOf(subtasks, runnable).vals ==> Elements(DepsOf(subtasks, runnable).vals[n]) <= runnable
  {
    if subtasks != [] {
      var st := subtasks[|subtasks| - 1];
      OnlyRunnableDeps(subtasks[..|subtasks| - 1], runnable);
      FilterMembers(Within(runnable), st.dependsOn);
    }
  }

  // ----- Conservation

  lemma {:induction false} CallsOfBatchMembers(calls: seq<ToolCall>, ids: seq<string>, c: ToolCall)
    ensures c in CallsOfBatch(calls, ids) <==> c in calls && c.subtaskId in ids
  {
    if ids != [] {
      var k := |ids| - 1;
      assert ids == ids[..k] + [ids[k]];
      CallsOfBatchMembers(calls, ids[..k], c);
      FilterMembers(OfSubtask(ids[k]), calls);
    }
  }

  lemma CallsOfBatchSnoc(calls: seq<ToolCall>, ids: seq<string>, sid: string)
    ensures CallsOfBatch(calls, ids + [sid]) == CallsOfBatch(calls, ids) + CallsFor(calls, sid)
  {
    assert (ids + [sid])[..|ids|] == ids;
    hide CallsFor;
  }

  lemma {:induction false} CallsOfBatchAppend(calls: seq<ToolCall>, a: seq<string>, b: seq<string>)
    ensures CallsOfBatch(calls, a + b) == CallsOfBatch(calls, a) + CallsOfBatch(calls, b)
  {
    if b == [] {
      assert a + b == a;
    } else {
      var front, sid := b[..|b| - 1], b[|b| - 1];
      CallsOfBatchAppend(calls, a, front);
      assert b == front + [sid] && a + b == (a + front) + [sid];
      CallsOfBatchSnoc(calls, front, sid);
      CallsOfBatchSnoc(calls, a + front, sid);
      hide CallsOfBatch, CallsFor;
    }
  }

  lemma {:induction false} FlattenedCalls(calls: seq<ToolCall>, idss: seq<seq<string>>, css: seq<seq<ToolCall>>)
    requires |css| == |idss| && forall i :: 0 <= i < |idss| ==> css[i] == CallsOfBatch(calls, idss[i])
    ensures Flatten(css) == CallsOfBatch(calls, Flatten(idss))
  {
    if idss != [] {
      var k := |idss| - 1;
      FlattenedCalls(calls, idss[..k], css[..k]);
      CallsOfBatchAppend(calls, Flatten(idss[..k]), idss[k]);
    }
  }

  lemma {:induction false} FilterSplits(p: ToolCall -> bool, q: ToolCall -> bool, r: ToolCall -> bool, s: seq<ToolCall>)
    requires forall x :: x in s ==> (r(x) <==> p(x) || q(x)) && !(p(x) && q(x))
    ensures multiset(Filter(r, s)) == multiset(Filter(p, s)) + multiset(Filter(q, s))
  {
    if s != [] {
      var k := |s| - 1;
      assert s == s[..k] + [s[k]];
      FilterSplits(p, q, r, s[..k]);
    }
  }

  lemma {:induction false} CallsOfBatchConserve(calls: seq<ToolCall>, ids: seq<string>)
    requires Distinct(ids)
    ensures multiset(CallsOfBatch(calls, ids)) == multiset(Filter(OfAny(Elements(ids)), calls))
  {
    if ids == [] {
      FilterNone(OfAny({}), calls);
      assert Elements(ids) == {};
    } else {
      var k := |ids| - 1;
      var front, last := ids[..k], ids[k];
      assert ids == front + [last];
      CallsOfBatchConserve(calls, front);
      assert last !in front;
      FilterSplits(OfAny(Elements(front)), OfSubtask(last), OfAny(Elements(ids)), calls);
    }
  }

  lemma {:induction false} CallsOfOneSubtask(calls: seq<ToolCall>, ids: seq<string>, sid: string)
    requires Distinct(ids)
    ensures CallsFor(CallsOfBatch(calls, ids), sid) == if sid in ids then CallsFor(calls, sid) else []
  {
    if ids != [] {
      var k := |ids| - 1;
      var front, last := ids[..k], ids[k];
      assert ids == front + [last];
      assert last !in front;
      CallsOfOneSubtask(calls, front, sid);
      FilterAppend(OfSubtask(sid), CallsOfBatch(calls, front), CallsFor(calls, last));
      FilterMembers(OfSubtask(last), calls);
      if sid == last {
        FilterAll(OfSubtask(sid), CallsFor(calls, last));
      } else {
        FilterNone(OfSubtask(sid), CallsFor(calls, last));
      }
    }
  }

  lemma ScheduledIds(plan: Plan, calls: seq<ToolCall>)
    ensures Distinct(Flatten(BatchIds(plan, calls)))
    ensures Elements(Flatten(BatchIds(plan, calls))) == Ids(plan.subtasks) * Runnable(calls)
    ensures Flatten(BatchCalls(plan, calls)) == CallsOfBatch(calls, Flatten(BatchIds(plan, calls)))
  {
    DepsMeaning(plan.subtasks, Runnable(calls));
    BatchesMeaning(DepsOf(plan.subtasks, Runnable(calls)));
    hide Batches, DepsOf, CallsOfBatch, Flatten;
    FlattenedCalls(calls, BatchIds(plan, calls), BatchCalls(plan, calls));
  }

  lemma SubtaskOrderKept(plan: Plan, calls: seq<ToolCall>, sid: string)
    requires sid in Ids(plan.subtasks)
    ensures CallsFor(Flatten(BatchCalls(plan, calls)), sid) == CallsFor(calls, sid)
  {
    ScheduledIds(plan, calls);
    hide BatchCalls, BatchIds, Filter, Flatten, CallsOfBatch;
    var ids := Flatten(BatchIds(plan, calls));
    CallsOfOneSubtask(calls, ids, sid);
    if sid !in ids {
      assert sid !in Elements(ids);
      FilterNone(OfSubtask(sid), calls);
    }
  }

  /** Scheduling neither loses nor repeats a call: across all batches the calls
      are exactly the allowed calls of plan subtasks, and those of any one
      subtask keep their order.  A call for a subtask the plan does not list is
      dropped. */
  lemma SchedulingConserves(plan: Plan, calls: seq<ToolCall>)
    ensures multiset(Flatten(BatchCalls(plan, calls))) == multiset(Filter(OfAny(Ids(plan.subtasks)), calls))
    ensures forall sid :: sid in Ids(plan.subtasks) ==> CallsFor(Flatten(BatchCalls(plan, calls)), sid) == CallsFor(calls, sid)
    ensures Runnable(calls) <= Ids(plan.subtasks) ==> multiset(Flatten(BatchCalls(plan, calls))) == multiset(calls)
  {
    hide BatchCalls, BatchIds, Filter, Flatten, CallsOfBatch, CallsFor;
    ScheduledIds(plan, calls);
    var ids := Flatten(BatchIds(plan, calls));
    CallsOfBatchConserve(calls, ids);
    FilterSame(OfAny(Elements(ids)), OfAny(Ids(plan.subtasks)), calls);
    forall sid | sid in Ids(plan.subtasks) ensures CallsFor(Flatten(BatchCalls(plan, calls)), sid) == CallsFor(calls, sid) {
      SubtaskOrderKept(plan, calls, sid);
    }
    if Runnable(calls) <= Ids(plan.subtasks) {
      FilterAll(OfAny(Ids(plan.subtasks)), calls);
    }
  }

  predicate BySubtask(cs: seq<ToolCall>) {
    forall i, j :: 0 <= i < j < |cs| ==> Le(cs[i].subtaskId, cs[j].subtaskId)
  }

  lemma {:induction false} CallsOfBatchSorted(calls: seq<ToolCall>, ids: seq<string>)
    requires StrictlySorted(ids)
    ensures BySubtask(CallsOfBatch(calls, ids))
  {
    if ids != [] {
      var front, last := ids[..|ids| - 1], ids[|ids| - 1];
      CallsOfBatchSorted(calls, front);
      var cs, mine := CallsOfBatch(calls, front), CallsFor(calls, last);
      FilterMembers(OfSubtask(last), calls);
      forall j | 0 <= j < |mine| ensures mine[j].subtaskId == last { assert mine[j] in mine; }
      forall i | 0 <= i < |cs| ensures Le(cs[i].subtaskId, last) {
        CallsOfBatchMembers(calls, front, cs[i]);
        var k :| 0 <= k < |front| && front[k] == cs[i].subtaskId;
        assert Less(ids[k], ids[|ids| - 1]);
      }
      Total(last, last);
      hide Le, CallsFor, StrictlySorted;
    }
  }

  /** The calls of a batch are grouped by subtask, the groups in string order of
      their ids -- the order in which the records come back, and in which a
      sequential run makes the calls. */
  lemma BatchOrder(plan: Plan, calls: seq<ToolCall>, b: nat)
    requires b < |BatchCalls(plan, calls)|
    ensures var cs := BatchCalls(plan, calls)[b];
            forall i, j :: 0 <= i < j < |cs| ==> Precedes(cs[i].subtaskId, cs[j].subtaskId)
  {
    SortedBatchIds(plan, calls, b);
    hide BatchIds;
    CallsOfBatchSorted(calls, BatchIds(plan, calls)[b]);
    var cs := CallsOfBatch(calls, BatchIds(plan, calls)[b]);
    assert cs == BatchCalls(plan, calls)[b] && BySubtask(cs);
    forall i, j | 0 <= i < j < |cs| ensures Precedes(cs[i].subtaskId, cs[j].subtaskId) {
      LeMeaning(cs[i].subtaskId, cs[j].subtaskId);
    }
  }

  lemma SortedBatchIds(plan: Plan, calls: seq<ToolCall>, b: nat)
    requires b < |BatchIds(plan, calls)|
    ensures StrictlySorted(BatchIds(plan, calls)[b])
  {
    BatchesMeaning(DepsOf(plan.subtasks, Runnable(calls)));
    hide Batches, DepsOf, Flatten, StrictlySorted, InStringOrder;
  }

  /** A call sits in the batch of its subtask. */
  lemma CallPlacement(plan: Plan, calls: seq<ToolCall>, b: nat, c: ToolCall)
    requires b < |BatchCalls(plan, calls)| && c in BatchCalls(plan, calls)[b]
    ensures c.subtaskId in RunGraph(plan, calls) && BatchOf(RunGraph(plan, calls), c.subtaskId) == b
  {
    var g := RunGraph(plan, calls);
    var deps := DepsOf(plan.subtasks, Runnable(calls));
    BatchesMeaning(deps);
    hide Batches, Layers;
    LayersPartition(g);
    CallsOfBatchMembers(calls, BatchIds(plan, calls)[b], c);
    assert c.subtaskId in Elements(BatchIds(plan, calls)[b]);
  }
}
