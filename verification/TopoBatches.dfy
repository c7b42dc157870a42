/** `_topo_batches` (src/orchestrator/executor.py): the loop, and what its
    output is in terms of the graph alone. */
module TopoBatches {
  import opened Seqs
  import opened OrderedDict
  import opened StringOrder
  import opened Layering

  type Deps = Dict<string, seq<string>>

  function GraphOf(deps: Deps): Graph {
    map n | n in deps.vals :: Elements(deps.vals[n])
  }

  function Within(ids: set<string>): string -> bool {
    n => n in ids
  }

  function Outside(ids: set<string>): string -> bool {
    n => n !in ids
  }

  function IsReady(deps: Deps, done: set<string>): string -> bool {
    n => n in deps.vals && forall d :: d in deps.vals[n] ==> d in done
  }

  /** The layers of the graph, each listed in string order. */
  function Batches(deps: Deps): seq<seq<string>> {
    var ls := Layers(GraphOf(deps));
    seq(|ls|, i requires 0 <= i < |ls| => SortStrings(Filter(Within(ls[i]), deps.keys)))
  }

  predicate Remains(deps: Deps, remaining: Deps, done: set<string>) {
    && remaining.Valid()
    && remaining.keys == Filter(Outside(done), deps.keys)
    && remaining.vals == deps.vals - done
  }

  lemma RemoveOne(deps: Deps, remaining: Deps, done: set<string>, n: string)
    requires deps.Valid() && Remains(deps, remaining, done)
    ensures Remains(deps, remaining.Remove(n), done + {n})
  {
    FilterTwice(Outside(done), OtherThan(n), Outside(done + {n}), deps.keys);
  }

  lemma ReadyIsTheRound(deps: Deps, remaining: Deps, i: nat)
    requires deps.Valid() && Remains(deps, remaining, Done(GraphOf(deps), i))
    ensures Filter(IsReady(remaining, Done(GraphOf(deps), i)), remaining.keys) ==
            Filter(Within(Round(GraphOf(deps), i)), deps.keys)
  {
    var g := GraphOf(deps);
    var done := Done(g, i);
    hide Done;
    forall n | n in deps.keys
      ensures Within(Round(g, i))(n) <==> Outside(done)(n) && IsReady(remaining, done)(n)
    {
      if n !in done {
        assert n in Elements(deps.keys);
        assert remaining.vals[n] == deps.vals[n];
        assert g[n] <= done <==> forall d :: d in deps.vals[n] ==> d in done;
      }
    }
    FilterTwice(Outside(done), IsReady(remaining, done), Within(Round(g, i)), deps.keys);
  }

  lemma SortedFilter(keys: seq<string>, ids: set<string>)
    requires Distinct(keys) && ids <= Elements(keys)
    ensures Elements(SortStrings(Filter(Within(ids), keys))) == ids
    ensures StrictlySorted(SortStrings(Filter(Within(ids), keys)))
  {
    FilterDistinct(Within(ids), keys);
    FilterMembers(Within(ids), keys);
    SortedIsSorted(Filter(Within(ids), keys));
    SortedKeepsElements(Filter(Within(ids), keys));
  }

  lemma LeftoverBatch(deps: Deps, remaining: Deps, i: nat)
    requires deps.Valid() && Remains(deps, remaining, Done(GraphOf(deps), i))
    ensures remaining.keys == Filter(Within(GraphOf(deps).Keys - Done(GraphOf(deps), i)), deps.keys)
    ensures remaining.keys == [] <==> Done(GraphOf(deps), i) == GraphOf(deps).Keys
  {
    var g := GraphOf(deps);
    var done := Done(g, i);
    hide Done;
    FilterSame(Outside(done), Within(g.Keys - done), deps.keys);
    if done == g.Keys {
      FilterNone(Outside(done), deps.keys);
    } else {
      var n :| n in g && n !in done;
      assert n in Elements(deps.keys);
      FilterMembers(Outside(done), deps.keys);
      assert n in remaining.keys;
    }
  }

  /** One turn of the loop: what it appends, and where that leaves the graph. */
  lemma Turn(deps: Deps, remaining: Deps, i: nat, ready: seq<string>)
    requires deps.Valid() && Remains(deps, remaining, Done(GraphOf(deps), i)) && remaining.keys != []
    requires ready == SortStrings(Filter(IsReady(remaining, Done(GraphOf(deps), i)), remaining.keys))
    ensures var g := GraphOf(deps);
            if ready == [] then
              LayersFrom(g, i) == [g.Keys - Done(g, i)]
              && SortStrings(remaining.keys) == SortStrings(Filter(Within(g.Keys - Done(g, i)), deps.keys))
            else
              && LayersFrom(g, i) == [Round(g, i)] + LayersFrom(g, i + 1)
              && ready == SortStrings(Filter(Within(Round(g, i)), deps.keys))
              && Done(g, i + 1) == Done(g, i) + Elements(ready)
              && |g.Keys - Done(g, i + 1)| < |g.Keys - Done(g, i)|
  {
    var g := GraphOf(deps);
    DoneUnfold(g, i);
    RoundFitsKeys(g, i);
    hide Done, Round, LayersFrom, Remains;
    LeftoverBatch(deps, remaining, i);
    ReadyIsTheRound(deps, remaining, i);
    LayersFromUnfold(g, i);
    SortedFilter(deps.keys, Round(g, i));
    if ready == [] {
      assert Elements(ready) == {};
    } else {
      assert ready[0] in Elements(ready);
    }
  }

  lemma RemoveStep(deps: Deps, remaining: Deps, done: set<string>, ready: seq<string>, j: nat)
    requires deps.Valid() && j < |ready| && Remains(deps, remaining, done + Elements(ready[..j]))
    ensures Remains(deps, remaining.Remove(ready[j]), done + Elements(ready[..j + 1]))
  {
    hide Remains;
    RemoveOne(deps, remaining, done + Elements(ready[..j]), ready[j]);
    assert done + Elements(ready[..j]) + {ready[j]} == done + Elements(ready[..j + 1]);
  }

  method PopAll(deps: Deps, remaining0: Deps, ghost done: set<string>, ready: seq<string>) returns (remaining: Deps)
    requires deps.Valid() && Remains(deps, remaining0, done)
    ensures Remains(deps, remaining, done + Elements(ready))
  {
    hide Remains;
    remaining := remaining0;
    assert done + Elements(ready[..0]) == done;
    for j := 0 to |ready|
      invariant Remains(deps, remaining, done + Elements(ready[..j]))
    {
      RemoveStep(deps, remaining, done, ready, j);
      remaining := remaining.Remove(ready[j]);
    }
    assert ready[..|ready|] == ready;
  }

  predicate Listed(deps: Deps, batches: seq<seq<string>>, layers: seq<set<string>>) {
    |batches| == |layers| && forall j :: 0 <= j < |batches| ==> batches[j] == SortStrings(Filter(Within(layers[j]), deps.keys))
  }

  lemma ListedSnoc(deps: Deps, batches: seq<seq<string>>, layers: seq<set<string>>, layer: set<string>)
    requires Listed(deps, batches, layers)
    ensures Listed(deps, batches + [SortStrings(Filter(Within(layer), deps.keys))], layers + [layer])
  {
  }

  lemma ListedIsBatches(deps: Deps, batches: seq<seq<string>>)
    requires Listed(deps, batches, Layers(GraphOf(deps)))
    ensures batches == Batches(deps)
  {
  }

  lemma Started(deps: Deps)
    requires deps.Valid()
    ensures Done(GraphOf(deps), 0) == {}
    ensures Layers(GraphOf(deps)) == [] + LayersFrom(GraphOf(deps), 0)
    ensures Listed(deps, [], [])
    ensures Remains(deps, deps, {})
  {
    FilterAll(Outside({}), deps.keys);
    assert deps.vals == deps.vals - {};
  }

  method ComputeBatches(deps: Deps) returns (batches: seq<seq<string>>)
    requires deps.Valid()
    ensures batches == Batches(deps)
  {
    hide *;
    ghost var g := GraphOf(deps);
    var remaining := deps;
    var done: set<string> := {};
    batches := [];
    ghost var layers: seq<set<string>> := [];
    ghost var i: nat := 0;
    ghost var fellBack := false;
    Started(deps);
    while remaining.keys != []
      invariant !fellBack && Remains(deps, remaining, done) && done == Done(g, i)
      invariant Layers(g) == layers + LayersFrom(g, i)
      invariant Listed(deps, batches, layers)
      decreases |g.Keys - Done(g, i)|
    {
      var ready := SortStrings(Filter(IsReady(remaining, done), remaining.keys));
      Turn(deps, remaining, i, ready);
      ListedSnoc(deps, batches, layers, if ready == [] then g.Keys - done else Round(g, i));
      if ready == [] {
        batches := batches + [SortStrings(remaining.keys)];
        layers := layers + [g.Keys - done];
        fellBack := true;
        break;
      }
      batches := batches + [ready];
      layers := layers + [Round(g, i)];
      remaining := PopAll(deps, remaining, done, ready);
      done := done + Elements(ready);
      i := i + 1;
    }
    if !fellBack {
      LeftoverBatch(deps, remaining, i);
      LayersFromUnfold(g, i);
      assert layers + [] == layers;
    }
    assert layers == Layers(g);
    ListedIsBatches(deps, batches);
  }

  lemma RoundFitsKeys(g: Graph, i: nat)
    ensures Round(g, i) <= g.Keys
  {
  }

  lemma DoneUnfold(g: Graph, i: nat)
    ensures Done(g, i + 1) == Done(g, i) + Round(g, i)
  {
  }

  lemma BatchMeaning(deps: Deps, i: nat)
    requires deps.Valid() && i < |Batches(deps)|
    ensures i < |Layers(GraphOf(deps))|
    ensures StrictlySorted(Batches(deps)[i]) && Distinct(Batches(deps)[i]) && Batches(deps)[i] != []
    ensures Elements(Batches(deps)[i]) == Layers(GraphOf(deps))[i]
  {
    var ls, b := Layers(GraphOf(deps)), Batches(deps)[i];
    hide Layers, LayersFrom;
    LayersPartition(GraphOf(deps));
    SortedFilter(deps.keys, ls[i]);
    assert b == [] ==> Elements(b) == {};
  }

  /** The output is a partition of the keys into non-empty batches, each in
      string order, and batch i holds exactly layer i. */
  lemma BatchesMeaning(deps: Deps)
    requires deps.Valid()
    ensures |Batches(deps)| == |Layers(GraphOf(deps))|
    ensures forall i :: 0 <= i < |Batches(deps)| ==>
              StrictlySorted(Batches(deps)[i]) && Batches(deps)[i] != [] && Elements(Batches(deps)[i]) == Layers(GraphOf(deps))[i]
    ensures forall i :: 0 <= i < |Batches(deps)| ==> InStringOrder(Batches(deps)[i])
    ensures Distinct(Flatten(Batches(deps)))
    ensures forall x :: x in Flatten(Batches(deps)) <==> x in deps.vals
  {
    var g := GraphOf(deps);
    var ls, bs := Layers(g), Batches(deps);
    assert |bs| == |ls|;
    hide Layers, LayersFrom, Batches, Distinct, StrictlySorted, InStringOrder;
    LayersPartition(g);
    forall i: nat | i < |bs|
      ensures StrictlySorted(bs[i]) && bs[i] != [] && Elements(bs[i]) == ls[i] && Distinct(bs[i]) && InStringOrder(bs[i])
      ensures forall x :: x in bs[i] <==> x in ls[i]
    {
      BatchMeaning(deps, i);
      SortedMeaning(bs[i]);
      assert forall x :: x in bs[i] <==> x in Elements(bs[i]);
    }
    FlattenDistinct(bs);
    forall x ensures x in Flatten(bs) <==> x in g {
      FlattenMember(bs, x);
    }
  }

  /** The output depends on the dependency sets alone: not on the order the
      keys were inserted, nor on the order or repetition of the entries of a
      dependency list. */
  lemma OrderIndependence(a: Deps, b: Deps)
    requires a.Valid() && b.Valid()
    requires a.vals.Keys == b.vals.Keys
    requires forall n :: n in a.vals ==> Elements(a.vals[n]) == Elements(b.vals[n])
    ensures Batches(a) == Batches(b)
  {
    assert GraphOf(a) == GraphOf(b);
    hide Layers, Batches;
    BatchesMeaning(a);
    BatchesMeaning(b);
    forall i | 0 <= i < |Batches(a)| ensures Batches(a)[i] == Batches(b)[i] {
      forall x ensures x in Batches(a)[i] <==> x in Batches(b)[i] {
        assert x in Elements(Batches(a)[i]) <==> x in Elements(Batches(b)[i]);
      }
      SortedListingIsUnique(Batches(a)[i], Batches(b)[i]);
    }
  }
}
