/** Batched Kahn layering of a finite dependency graph, described without the
    algorithm: chains, lassos (chains into a cycle) and layer assignments.
    `g[n]` is the set of nodes that n depends on. */
module Layering {
  import opened Seqs

  type Node = string
  type Graph = map<Node, set<Node>>

  // ----- The algorithm's rounds

  function Ready(g: Graph, done: set<Node>): set<Node> {
    set n | n in g && n !in done && g[n] <= done
  }

  /** The nodes placed by the first i rounds. */
  function Done(g: Graph, i: nat): (r: set<Node>)
    ensures r <= g.Keys
  {
    if i == 0 then {} else Done(g, i - 1) + Ready(g, Done(g, i - 1))
  }

  function Round(g: Graph, i: nat): set<Node> {
    Ready(g, Done(g, i))
  }

  /** The batches from round i on: one per non-empty round, then whatever is
      left over as one fallback batch. */
  function LayersFrom(g: Graph, i: nat): seq<set<Node>>
    decreases |g.Keys - Done(g, i)|
  {
    var left := g.Keys - Done(g, i);
    if left == {} then []
    else if Round(g, i) == {} then [left]
    else
      assert g.Keys - Done(g, i + 1) < left;
      StrictSubsetIsSmaller(g.Keys - Done(g, i + 1), left);
      [Round(g, i)] + LayersFrom(g, i + 1)
  }

  function Layers(g: Graph): seq<set<Node>> {
    LayersFrom(g, 0)
  }

  lemma StrictSubsetIsSmaller(a: set<Node>, b: set<Node>)
    requires a < b
    ensures |a| < |b|
  {
    var x :| x in b && x !in a;
    assert a <= b - {x};
    SubsetIsSmaller(a, b - {x});
  }

  lemma {:induction false} SubsetIsSmaller(a: set<Node>, b: set<Node>)
    requires a <= b
    ensures |a| <= |b|
  {
    if a != {} {
      var x :| x in a;
      SubsetIsSmaller(a - {x}, b - {x});
    }
  }

  /** The nodes no round ever places. */
  function Stuck(g: Graph): set<Node> {
    g.Keys - Done(g, |g|)
  }

  /** A node is placed within i+1 rounds exactly when its dependencies are
      placed within i. */
  lemma {:induction false} DoneStep(g: Graph, i: nat, n: Node)
    ensures Done(g, i) <= Done(g, i + 1)
    ensures n in Done(g, i + 1) <==> n in g && g[n] <= Done(g, i)
  {
    if i > 0 && n in Done(g, i) { DoneStep(g, i - 1, n); }
  }

  lemma RoundMeaning(g: Graph, i: nat, n: Node)
    ensures n in Round(g, i) <==> n in Done(g, i + 1) && n !in Done(g, i)
    ensures Round(g, i) == {} ==> Done(g, i + 1) == Done(g, i)
  {
  }

  /** What holds an unplaced node back. */
  lemma Blocker(g: Graph, n: Node, i: nat) returns (d: Node)
    requires i > 0 && n in g && n !in Done(g, i)
    ensures d in g[n] && d !in Done(g, i - 1)
  {
    DoneStep(g, i - 1, n);
    d :| d in g[n] && d !in Done(g, i - 1);
  }

  lemma {:induction false} DoneMonotone(g: Graph, i: nat, j: nat)
    requires i <= j
    ensures Done(g, i) <= Done(g, j)
  {
    if i < j { DoneMonotone(g, i, j - 1); }
  }

  lemma {:induction false} EmptyRoundIsFinal(g: Graph, i: nat, j: nat)
    requires Round(g, i) == {} && i <= j
    ensures Done(g, j) == Done(g, i)
  {
    if i < j { EmptyRoundIsFinal(g, i, j - 1); }
  }

  lemma RoundGrows(g: Graph, i: nat)
    requires Round(g, i) != {}
    ensures |Done(g, i)| < |Done(g, i + 1)|
  {
    var n :| n in Round(g, i);
    RoundMeaning(g, i, n);
    DoneMonotone(g, i, i + 1);
    hide Done, Round;
    StrictSubsetIsSmaller(Done(g, i), Done(g, i + 1));
  }

  lemma {:induction false} DoneInGraph(g: Graph, i: nat)
    ensures Done(g, i) <= g.Keys
  {
    if i > 0 { DoneInGraph(g, i - 1); }
  }

  /** Rounds that all place something place at least one node each. */
  lemma {:induction false} RoundsFit(g: Graph, i: nat)
    requires forall j :: 0 <= j < i ==> Round(g, j) != {}
    ensures i <= |Done(g, i)| <= |g|
  {
    hide Done, Round;
    DoneInGraph(g, i);
    SubsetIsSmaller(Done(g, i), g.Keys);
    if i > 0 {
      RoundsFit(g, i - 1);
      assert Round(g, i - 1) != {};
      RoundGrows(g, i - 1);
    }
  }

  // ----- Layers, read off the rounds

  lemma LayersFromUnfold(g: Graph, i: nat)
    ensures Done(g, i) == g.Keys ==> LayersFrom(g, i) == []
    ensures Done(g, i) != g.Keys && Round(g, i) == {} ==> LayersFrom(g, i) == [g.Keys - Done(g, i)]
    ensures Round(g, i) != {} ==> |g.Keys - Done(g, i + 1)| < |g.Keys - Done(g, i)|
    ensures Round(g, i) != {} ==> LayersFrom(g, i) == [Round(g, i)] + LayersFrom(g, i + 1)
  {
    assert g.Keys - Done(g, i) == {} ==> Done(g, i) == g.Keys;
    if Round(g, i) != {} {
      assert g.Keys - Done(g, i + 1) < g.Keys - Done(g, i);
      StrictSubsetIsSmaller(g.Keys - Done(g, i + 1), g.Keys - Done(g, i));
    }
  }

  lemma {:induction false} LayersFromShape(g: Graph, i: nat)
    requires forall j :: 0 <= j < i ==> Round(g, j) != {}
    ensures var ls := LayersFrom(g, i);
            var d := |ls| - (if Stuck(g) == {} then 0 else 1);
            && d >= 0
            && (forall j :: 0 <= j < d ==> ls[j] == Round(g, i + j) && ls[j] != {})
            && (d < |ls| ==> ls[d] == Stuck(g))
            && Round(g, i + d) == {}
    decreases |g.Keys - Done(g, i)|
  {
    hide Done, Round, LayersFrom;
    RoundsFit(g, i);
    LayersFromUnfold(g, i);
    if Round(g, i) == {} {
      EmptyRoundIsFinal(g, i, |g|);
    } else {
      LayersFromShape(g, i + 1);
      var ls, rest := LayersFrom(g, i), LayersFrom(g, i + 1);
      var d := |rest| - (if Stuck(g) == {} then 0 else 1);
      forall j | 0 <= j < d + 1 ensures ls[j] == Round(g, i + j) && ls[j] != {} {
        if j > 0 { assert ls[j] == rest[j - 1] == Round(g, i + 1 + (j - 1)); }
      }
      assert i + 1 + d == i + (d + 1);
    }
  }

  /** The number of rounds that placed something. */
  function Depth(g: Graph): int {
    |Layers(g)| - (if Stuck(g) == {} then 0 else 1)
  }

  lemma LayersAreRounds(g: Graph)
    ensures 0 <= Depth(g) <= |Layers(g)|
    ensures forall j :: 0 <= j < Depth(g) ==> Layers(g)[j] == Round(g, j) && Layers(g)[j] != {}
    ensures Stuck(g) != {} ==> Layers(g)[Depth(g)] == Stuck(g)
    ensures Round(g, Depth(g)) == {}
  {
    hide Done, Round, LayersFrom, Stuck;
    LayersFromShape(g, 0);
    forall j: nat | j < Depth(g) ensures Layers(g)[j] == Round(g, j) && Round(g, j) != {} {
      assert Layers(g)[j] == Round(g, 0 + j);
    }
    assert Round(g, 0 + Depth(g)) == {};
  }

  lemma LayersShape(g: Graph)
    ensures 0 <= Depth(g) <= |Layers(g)| && Depth(g) <= |g|
    ensures forall j :: 0 <= j < Depth(g) ==> Layers(g)[j] == Round(g, j) && Layers(g)[j] != {}
    ensures Stuck(g) != {} ==> Layers(g)[Depth(g)] == Stuck(g)
    ensures Done(g, Depth(g)) == g.Keys - Stuck(g)
  {
    hide Done, Round, LayersFrom, Layers, Depth;
    LayersAreRounds(g);
    forall j: nat | j < Depth(g) ensures Round(g, j) != {} {
      assert Layers(g)[j] == Round(g, j);
    }
    RoundsFit(g, Depth(g));
    EmptyRoundIsFinal(g, Depth(g), |g|);
  }

  lemma NothingDoneAtFirst(g: Graph)
    ensures Done(g, 0) == {}
  {
  }

  lemma {:induction false} PlacedInARound(g: Graph, n: Node, i: nat)
    requires n in Done(g, i)
    ensures exists j: nat :: j < i && n in Round(g, j)
  {
    hide Done, Round;
    if i == 0 {
      NothingDoneAtFirst(g);
    } else if n in Done(g, i - 1) {
      PlacedInARound(g, n, i - 1);
    } else {
      RoundMeaning(g, i - 1, n);
    }
  }

  lemma RoundsAreDisjoint(g: Graph, n: Node, i: nat, j: nat)
    requires n in Round(g, i) && n in Round(g, j)
    ensures i == j
  {
    if i < j { DoneMonotone(g, i + 1, j); }
    if j < i { DoneMonotone(g, j + 1, i); }
  }

  lemma LayersAreDisjoint(g: Graph, n: Node, i: nat, j: nat)
    requires i < |Layers(g)| && j < |Layers(g)| && n in Layers(g)[i] && n in Layers(g)[j]
    ensures i == j
  {
    LayersShape(g);
    var d := Depth(g);
    if i < d && j < d {
      RoundsAreDisjoint(g, n, i, j);
    } else if i < d {
      DoneMonotone(g, i + 1, d);
    } else if j < d {
      DoneMonotone(g, j + 1, d);
    }
  }

  /** The layers partition the nodes into non-empty parts. */
  lemma LayersPartition(g: Graph)
    ensures forall i :: 0 <= i < |Layers(g)| ==> Layers(g)[i] != {} && Layers(g)[i] <= g.Keys
    ensures forall i, j, n :: 0 <= i < |Layers(g)| && 0 <= j < |Layers(g)| && n in Layers(g)[i] && n in Layers(g)[j] ==> i == j
    ensures forall n :: n in g ==> exists i :: 0 <= i < |Layers(g)| && n in Layers(g)[i]
  {
    var ls, d := Layers(g), Depth(g);
    LayersShape(g);
    forall i, j, n | 0 <= i < |ls| && 0 <= j < |ls| && n in ls[i] && n in ls[j] ensures i == j {
      LayersAreDisjoint(g, n, i, j);
    }
    hide LayersFrom, Round;
    forall n | n in g ensures exists i :: 0 <= i < |ls| && n in ls[i] {
      if n in Stuck(g) {
        assert n in ls[d];
      } else {
        PlacedInARound(g, n, d);
        var j: nat :| j < d && n in Round(g, j);
        assert n in ls[j];
      }
    }
  }

  /** The batch a node is put in. */
  ghost function BatchOf(g: Graph, n: Node): (i: nat)
    requires n in g
    ensures i < |Layers(g)| && n in Layers(g)[i]
  {
    LayersPartition(g);
    var i :| 0 <= i < |Layers(g)| && n in Layers(g)[i];
    i
  }

  // ----- Chains

  predicate Closed(g: Graph) {
    forall n :: n in g ==> g[n] <= g.Keys
  }

  /** p[0] depends on p[1], which depends on p[2], and so on. */
  predicate Chain(g: Graph, p: seq<Node>) {
    forall i :: 0 <= i < |p| - 1 ==> p[i] in g && p[i + 1] in g[p[i]]
  }

  /** A chain whose last node is one of its earlier nodes: it runs into a
      cycle (a self-dependency included). */
  predicate Lasso(g: Graph, p: seq<Node>) {
    Chain(g, p) && exists m :: 0 <= m < |p| - 1 && p[m] == p[|p| - 1]
  }

  ghost predicate ReachesCycle(g: Graph, n: Node) {
    exists p :: p != [] && p[0] == n && Lasso(g, p)
  }

  ghost predicate ReachesMissing(g: Graph, n: Node) {
    exists p :: p != [] && p[0] == n && Chain(g, p) && p[|p| - 1] !in g
  }

  ghost predicate HasChain(g: Graph, n: Node, nodes: nat) {
    exists p :: |p| == nodes > 0 && p[0] == n && Chain(g, p)
  }

  /** A node is unplaced after i rounds only because of a chain from it that
      has i edges, or that leaves the graph. */
  lemma {:induction false} UnplacedHasChain(g: Graph, n: Node, i: nat)
    requires n !in Done(g, i)
    ensures HasChain(g, n, i + 1) || ReachesMissing(g, n)
    decreases i
  {
    hide Done;
    if n !in g {
      assert Chain(g, [n]) && [n][|[n]| - 1] !in g;
    } else if i == 0 {
      assert Chain(g, [n]);
    } else {
      var d := Blocker(g, n, i);
      UnplacedHasChain(g, d, i - 1);
      if HasChain(g, d, i) {
        var p :| |p| == i && p[0] == d && Chain(g, p);
        ChainCons(g, n, p);
        assert |[n] + p| == i + 1;
      } else {
        var p :| p != [] && p[0] == d && Chain(g, p) && p[|p| - 1] !in g;
        ChainCons(g, n, p);
        assert ([n] + p)[|[n] + p| - 1] !in g;
      }
    }
  }

  lemma ChainCons(g: Graph, n: Node, p: seq<Node>)
    requires p != [] && Chain(g, p) && n in g && p[0] in g[n]
    ensures Chain(g, [n] + p) && ([n] + p)[0] == n
  {
    var q := [n] + p;
    forall i | 0 <= i < |q| - 1 ensures q[i] in g && q[i + 1] in g[q[i]] {
      assert i > 0 ==> q[i] == p[i - 1] && q[i + 1] == p[i];
    }
  }

  /** Conversely a chain with i edges keeps its first node out of i rounds. */
  lemma {:induction false} ChainDelays(g: Graph, p: seq<Node>, i: nat)
    requires |p| == i + 1 && Chain(g, p)
    ensures p[0] !in Done(g, i)
  {
    if i > 0 {
      var q := p[1..];
      forall k | 0 <= k < |q| - 1 ensures q[k] in g && q[k + 1] in g[q[k]] {
        assert q[k] == p[k + 1] && q[k + 1] == p[k + 2];
      }
      ChainDelays(g, q, i - 1);
      DoneStep(g, i - 1, p[0]);
      assert q[0] == p[1] && p[1] in g[p[0]];
    }
  }

  /** A set whose members each leave the graph or depend on the set itself is
      never entered by any round. */
  lemma {:induction false} TrapIsNeverPlaced(g: Graph, trap: set<Node>, i: nat)
    requires forall n :: n in trap && n in g ==> exists d :: d in g[n] && d in trap
    ensures trap !! Done(g, i)
  {
    if i > 0 {
      TrapIsNeverPlaced(g, trap, i - 1);
      forall n | n in trap ensures n !in Done(g, i) {
        DoneStep(g, i - 1, n);
        if n in g {
          var d :| d in g[n] && d in trap;
          assert d !in Done(g, i - 1);
        }
      }
    }
  }

  lemma LassoIsNeverPlaced(g: Graph, p: seq<Node>, i: nat)
    requires p != [] && Chain(g, p)
    requires Lasso(g, p) || p[|p| - 1] !in g
    ensures p[0] !in Done(g, i)
  {
    var trap := Elements(p);
    forall n | n in trap && n in g ensures exists d :: d in g[n] && d in trap {
      var k :| 0 <= k < |p| && p[k] == n;
      if k < |p| - 1 {
        assert p[k + 1] in g[n] && p[k + 1] in trap;
      } else {
        var m :| 0 <= m < |p| - 1 && p[m] == p[|p| - 1];
        assert p[m + 1] in g[n] && p[m + 1] in trap;
      }
    }
    TrapIsNeverPlaced(g, trap, i);
    assert p[0] in trap;
  }

  lemma LongChainHasLasso(g: Graph, p: seq<Node>)
    requires Chain(g, p) && |p| > |g| && p[|p| - 1] in g
    ensures ReachesCycle(g, p[0])
  {
    if Distinct(p) {
      DistinctFits(p, g.Keys);
    }
    var i, j :| 0 <= i < j < |p| && p[i] == p[j];
    var q := p[..j + 1];
    assert q[i] == q[|q| - 1];
    assert Lasso(g, q) && q[0] == p[0];
  }

  ghost predicate Blocked(g: Graph, n: Node) {
    ReachesCycle(g, n) || ReachesMissing(g, n)
  }

  /** The fallback batch is exactly the set of nodes that can reach a cycle or
      a dependency outside the graph. */
  lemma StuckMeaning(g: Graph, n: Node)
    requires n in g
    ensures n in Stuck(g) <==> Blocked(g, n)
  {
    if n in Stuck(g) {
      UnplacedHasChain(g, n, |g|);
      if !ReachesMissing(g, n) {
        var p :| |p| == |g| + 1 && p[0] == n && Chain(g, p);
        assert p[|p| - 1] in g;
        LongChainHasLasso(g, p);
      }
    } else if ReachesCycle(g, n) {
      var p :| p != [] && p[0] == n && Lasso(g, p);
      LassoIsNeverPlaced(g, p, |g|);
    } else if ReachesMissing(g, n) {
      var p :| p != [] && p[0] == n && Chain(g, p) && p[|p| - 1] !in g;
      LassoIsNeverPlaced(g, p, |g|);
    }
  }

  lemma {:induction false} ClosedChainStays(g: Graph, p: seq<Node>)
    requires Closed(g) && p != [] && p[0] in g && Chain(g, p)
    ensures forall i :: 0 <= i < |p| ==> p[i] in g
  {
    if |p| > 1 {
      assert p[|p| - 2] in g && p[|p| - 1] in g[p[|p| - 2]];
    }
  }

  ghost predicate Acyclic(g: Graph) {
    forall n :: n in g ==> !ReachesCycle(g, n)
  }

  /** On a closed graph the fallback fires exactly when there is a cycle, and
      the fallback batch is exactly the nodes that can reach one. */
  lemma FallbackTheorem(g: Graph)
    requires Closed(g)
    ensures Stuck(g) == {} <==> Acyclic(g)
    ensures forall n :: n in g ==> (n in Stuck(g) <==> ReachesCycle(g, n))
    ensures Stuck(g) != {} ==> Layers(g)[|Layers(g)| - 1] == Stuck(g)
  {
    LayersShape(g);
    forall n | n in g ensures n in Stuck(g) <==> ReachesCycle(g, n) {
      StuckMeaning(g, n);
      if ReachesMissing(g, n) {
        var p :| p != [] && p[0] == n && Chain(g, p) && p[|p| - 1] !in g;
        ClosedChainStays(g, p);
      }
    }
  }

  lemma StuckIsNeverDone(g: Graph, n: Node, i: nat)
    requires n in Stuck(g)
    ensures n !in Done(g, i)
  {
    hide Round, LayersFrom;
    LayersShape(g);
    if i <= |g| {
      DoneMonotone(g, i, |g|);
    } else {
      LayersFromShape(g, 0);
      assert Round(g, 0 + Depth(g)) == {};
      EmptyRoundIsFinal(g, Depth(g), i);
    }
  }

  lemma PlacedBatch(g: Graph, n: Node)
    requires n in g
    ensures 0 <= Depth(g)
    ensures n in Stuck(g) ==> BatchOf(g, n) == Depth(g)
    ensures n !in Stuck(g) ==> BatchOf(g, n) < Depth(g) && n in Round(g, BatchOf(g, n))
  {
    hide Done, Round, LayersFrom;
    LayersShape(g);
    LayersPartition(g);
  }

  /** Every dependency is in an earlier batch or in the same one, and the
      latter exactly when both are in the fallback batch. */
  lemma EdgeTheorem(g: Graph, a: Node, b: Node)
    requires a in g && b in g && b in g[a]
    ensures BatchOf(g, b) <= BatchOf(g, a)
    ensures BatchOf(g, b) == BatchOf(g, a) <==> a in Stuck(g) && b in Stuck(g)
  {
    hide Done, Round, LayersFrom, Layers, Depth, Stuck;
    PlacedBatch(g, a);
    PlacedBatch(g, b);
    if a !in Stuck(g) {
      var i := BatchOf(g, a);
      DoneStep(g, i, a);
      RoundMeaning(g, i, a);
      RoundMeaning(g, BatchOf(g, b), b);
      if b in Stuck(g) { StuckIsNeverDone(g, b, i); }
      if BatchOf(g, b) >= i { DoneMonotone(g, i, BatchOf(g, b)); }
    }
  }

  // ----- Optimality

  /** A layer assignment that puts every dependency strictly earlier. */
  predicate ValidLayering(g: Graph, layer: map<Node, nat>) {
    && g.Keys <= layer.Keys
    && forall n, d :: n in g && d in g[n] && d in layer ==> layer[d] < layer[n]
  }

  lemma {:induction false} LayeringIsNoEarlier(g: Graph, layer: map<Node, nat>, n: Node, i: nat)
    requires Closed(g) && ValidLayering(g, layer)
    requires n in g && n !in Done(g, i)
    ensures layer[n] >= i
    decreases i
  {
    hide Done;
    if i > 0 {
      var d := Blocker(g, n, i);
      LayeringIsNoEarlier(g, layer, d, i - 1);
    }
  }

  /** Optimal layering.  On an acyclic closed graph each node's batch index is
      the number of edges of its longest dependency chain. */
  lemma LongestChainTheorem(g: Graph, n: Node)
    requires Closed(g) && Acyclic(g) && n in g
    ensures HasChain(g, n, BatchOf(g, n) + 1)
    ensures forall p :: p != [] && p[0] == n && Chain(g, p) ==> |p| <= BatchOf(g, n) + 1
  {
    hide Done, Round, LayersFrom, Layers, Depth, Stuck, Lasso;
    FallbackTheorem(g);
    PlacedBatch(g, n);
    var i := BatchOf(g, n);
    RoundMeaning(g, i, n);
    UnplacedHasChain(g, n, i);
    if ReachesMissing(g, n) {
      var p :| p != [] && p[0] == n && Chain(g, p) && p[|p| - 1] !in g;
      ClosedChainStays(g, p);
    }
    forall p | p != [] && p[0] == n && Chain(g, p) ensures |p| <= i + 1 {
      ChainDelays(g, p, |p| - 1);
      if |p| > i + 1 { DoneMonotone(g, i + 1, |p| - 1); }
    }
  }

  /** No valid layering places a node earlier than its batch, and none places a
      node of the fallback batch at all. */
  lemma NoLayeringPutsItEarlier(g: Graph, layer: map<Node, nat>, n: Node)
    requires Closed(g) && ValidLayering(g, layer) && n in g
    ensures n !in Stuck(g) && BatchOf(g, n) <= layer[n]
  {
    hide Done, Round, LayersFrom, Layers, Depth, Stuck;
    if n in Stuck(g) {
      StuckIsNeverDone(g, n, layer[n] + 1);
      LayeringIsNoEarlier(g, layer, n, layer[n] + 1);
    } else {
      PlacedBatch(g, n);
      RoundMeaning(g, BatchOf(g, n), n);
      LayeringIsNoEarlier(g, layer, n, BatchOf(g, n));
    }
  }

  /** Without a cycle the batches themselves are a valid layering. */
  lemma BatchesAreALayering(g: Graph)
    requires Closed(g) && Acyclic(g)
    ensures ValidLayering(g, map n | n in g :: BatchOf(g, n))
  {
    hide Done, Round, LayersFrom, Layers, Depth, Stuck, Acyclic;
    FallbackTheorem(g);
    var layer := map n | n in g :: BatchOf(g, n);
    forall n, d | n in g && d in g[n] && d in layer ensures layer[d] < layer[n] {
      EdgeTheorem(g, n, d);
    }
  }

  /** There is a valid layering exactly when there is no cycle. */
  lemma LayeringExistsIffAcyclic(g: Graph)
    requires Closed(g)
    ensures (exists layer :: ValidLayering(g, layer)) <==> Acyclic(g)
  {
    hide Done, Round, LayersFrom, Layers, Depth, Stuck, ValidLayering, Acyclic;
    if layer :| ValidLayering(g, layer) {
      FallbackTheorem(g);
      forall n | n in g ensures n !in Stuck(g) { NoLayeringPutsItEarlier(g, layer, n); }
      StuckWithinKeys(g);
    }
    if Acyclic(g) { BatchesAreALayering(g); }
  }

  lemma StuckWithinKeys(g: Graph)
    ensures Stuck(g) <= g.Keys
  {
  }

  /** So no valid layering has fewer layers than there are batches. */
  lemma FewestBatchesTheorem(g: Graph, layer: map<Node, nat>, layers: nat)
    requires Closed(g) && ValidLayering(g, layer)
    requires forall n :: n in g ==> layer[n] < layers
    ensures |Layers(g)| <= layers
  {
    hide Done, Round, LayersFrom, Layers, Depth, Stuck;
    LayersPartition(g);
    if Layers(g) != [] {
      var last := |Layers(g)| - 1;
      var n :| n in Layers(g)[last];
      NoLayeringPutsItEarlier(g, layer, n);
    }
  }

  /** Along a chain of dependencies that stay inside the graph the order is
      transitive: its last node is in an earlier batch than its first. */
  lemma {:induction false} ChainOrder(g: Graph, p: seq<Node>)
    requires Closed(g) && Chain(g, p) && |p| >= 2 && p[0] in g && p[0] !in Stuck(g)
    ensures p[|p| - 1] in g && BatchOf(g, p[|p| - 1]) < BatchOf(g, p[0])
  {
    hide Done, Round, LayersFrom, Layers, Depth, Stuck;
    assert p[1] in g[p[0]];
    EdgeTheorem(g, p[0], p[1]);
    if |p| > 2 {
      var q := p[1..];
      forall i | 0 <= i < |q| - 1 ensures q[i] in g && q[i + 1] in g[q[i]] {
        assert q[i] == p[i + 1] && q[i + 1] == p[i + 2];
      }
      NotStuckBelow(g, p[0], p[1]);
      ChainOrder(g, q);
    }
  }

  lemma NotStuckBelow(g: Graph, a: Node, b: Node)
    requires Closed(g) && a in g && b in g[a] && a !in Stuck(g)
    ensures b !in Stuck(g)
  {
    hide Round, LayersFrom, Layers;
    DoneStep(g, |g|, a);
    DoneMonotone(g, |g|, |g| + 1);
  }
}
