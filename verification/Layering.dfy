/**
 The mathematics of a layered topological sort.

 Layers peels a graph: each layer holds the vertices with no remaining predecessor, and when
 no vertex qualifies everything that is left becomes one last layer.  The lemmas connect the
 peeling to dependency chains: a vertex's layer is the length of the longest chain ending in
 it, and the last-resort layer is exactly what lies on or after a cycle.
 */
module Layering {
  import opened Resources

  datatype Edge = Edge(before: Identifier, after: Identifier)

  ghost predicate Blocked(x: Identifier, rest: set<Identifier>, edges: set<Edge>) {
    exists y | y in rest :: Edge(y, x) in edges
  }

  ghost function Ready(rest: set<Identifier>, edges: set<Edge>): (ready: set<Identifier>)
    ensures ready <= rest
  {
    set x | x in rest && !Blocked(x, rest, edges)
  }

  ghost function Layers(rest: set<Identifier>, edges: set<Edge>): seq<set<Identifier>>
    decreases rest
  {
    if rest == {} then []
    else
      var ready := Ready(rest, edges);
      if ready == {} then [rest] else [ready] + Layers(rest - ready, edges)
  }

  /** What is left after k rounds of peeling. */
  ghost function Rest(nodes: set<Identifier>, edges: set<Edge>, k: nat): set<Identifier> {
    if k == 0 then nodes
    else var r := Rest(nodes, edges, k - 1); r - Ready(r, edges)
  }

  /** A walk along edges, inside the given vertices. */
  ghost predicate IsChain(c: seq<Identifier>, nodes: set<Identifier>, edges: set<Edge>) {
    && |c| > 0
    && (forall i | 0 <= i < |c| :: c[i] in nodes)
    && (forall i | 0 < i < |c| :: Edge(c[i - 1], c[i]) in edges)
  }

  ghost predicate EndsIn(c: seq<Identifier>, x: Identifier, k: nat, nodes: set<Identifier>, edges: set<Edge>) {
    IsChain(c, nodes, edges) && |c| == k + 1 && c[k] == x
  }

  /** Some chain of k edges ends in x. */
  ghost predicate HasChain(x: Identifier, k: nat, nodes: set<Identifier>, edges: set<Edge>) {
    exists c :: EndsIn(c, x, k, nodes, edges)
  }

  /** The longest chain ending in x has exactly k edges. */
  ghost predicate DepthIs(x: Identifier, k: nat, nodes: set<Identifier>, edges: set<Edge>) {
    HasChain(x, k, nodes, edges) && !HasChain(x, k + 1, nodes, edges)
  }

  ghost predicate Repeats(c: seq<Identifier>) {
    exists i, j :: 0 <= i < j < |c| && c[i] == c[j]
  }

  /** A chain ending in x visits some vertex twice: x lies on or downstream of a cycle. */
  ghost predicate AfterCycle(x: Identifier, nodes: set<Identifier>, edges: set<Edge>) {
    exists c :: IsChain(c, nodes, edges) && c[|c| - 1] == x && Repeats(c)
  }

  ghost predicate Acyclic(nodes: set<Identifier>, edges: set<Edge>) {
    forall x | x in nodes :: !AfterCycle(x, nodes, edges)
  }

  /** The last layer was emitted because nothing was ready. */
  ghost predicate FellBack(layers: seq<set<Identifier>>, edges: set<Edge>) {
    |layers| > 0 && Ready(layers[|layers| - 1], edges) == {}
  }

  // ---------------------------------------------------------------------------------------
  // Chains and rounds of peeling
  // ---------------------------------------------------------------------------------------

  lemma ExtendChain(y: Identifier, x: Identifier, k: nat, nodes: set<Identifier>, edges: set<Edge>)
    requires HasChain(y, k, nodes, edges) && x in nodes && Edge(y, x) in edges
    ensures HasChain(x, k + 1, nodes, edges)
  {
    var c :| EndsIn(c, y, k, nodes, edges);
    assert EndsIn(c + [x], x, k + 1, nodes, edges);
  }

  lemma ShortenChain(x: Identifier, k: nat, nodes: set<Identifier>, edges: set<Edge>)
    requires HasChain(x, k + 1, nodes, edges)
    ensures HasChain(x, k, nodes, edges)
  {
    var c :| EndsIn(c, x, k + 1, nodes, edges);
    assert EndsIn(c[1..], x, k, nodes, edges);
  }

  lemma {:induction false} ShorterChains(x: Identifier, j: nat, k: nat, nodes: set<Identifier>, edges: set<Edge>)
    requires j <= k && HasChain(x, k, nodes, edges)
    ensures HasChain(x, j, nodes, edges)
  {
    if j < k {
      ShortenChain(x, k - 1, nodes, edges);
      ShorterChains(x, j, k - 1, nodes, edges);
    }
  }

  lemma LastEdge(x: Identifier, k: nat, nodes: set<Identifier>, edges: set<Edge>) returns (y: Identifier)
    requires HasChain(x, k + 1, nodes, edges)
    ensures y in nodes && Edge(y, x) in edges && HasChain(y, k, nodes, edges)
  {
    var c :| EndsIn(c, x, k + 1, nodes, edges);
    y := c[k];
    assert Edge(c[(k + 1) - 1], c[k + 1]) in edges;
    assert EndsIn(c[..k + 1], y, k, nodes, edges);
  }

  /** Surviving k rounds of peeling is having a chain of k edges behind you. */
  lemma {:induction false} RestIffChain(x: Identifier, k: nat, nodes: set<Identifier>, edges: set<Edge>)
    ensures x in Rest(nodes, edges, k) <==> HasChain(x, k, nodes, edges)
    decreases k
  {
    if k == 0 {
      if x in nodes { assert EndsIn([x], x, 0, nodes, edges); }
    } else {
      var r := Rest(nodes, edges, k - 1);
      RestIffChain(x, k - 1, nodes, edges);
      if x in Rest(nodes, edges, k) {
        var y :| y in r && Edge(y, x) in edges;
        RestIffChain(y, k - 1, nodes, edges);
        ExtendChain(y, x, k - 1, nodes, edges) by { ChainEndsInside(x, k - 1, nodes, edges); }
      }
      if HasChain(x, k, nodes, edges) {
        ShortenChain(x, k - 1, nodes, edges);
        var y := LastEdge(x, k - 1, nodes, edges);
        RestIffChain(y, k - 1, nodes, edges);
        assert Blocked(x, r, edges);
      }
    }
  }

  lemma ChainEndsInside(x: Identifier, k: nat, nodes: set<Identifier>, edges: set<Edge>)
    requires HasChain(x, k, nodes, edges)
    ensures x in nodes
  {
    var c :| EndsIn(c, x, k, nodes, edges);
  }

  // ---------------------------------------------------------------------------------------
  // Layers and rounds of peeling
  // ---------------------------------------------------------------------------------------

  lemma {:induction false} RestShift(nodes: set<Identifier>, edges: set<Edge>, k: nat)
    ensures Rest(nodes, edges, k + 1) == Rest(nodes - Ready(nodes, edges), edges, k)
  {
    if k > 0 { RestShift(nodes, edges, k - 1); }
  }

  lemma {:induction false} LayersAreRounds(nodes: set<Identifier>, edges: set<Edge>, k: nat)
    requires k < |Layers(nodes, edges)|
    ensures var r := Rest(nodes, edges, k);
            r != {} &&
            Layers(nodes, edges)[k] == (if Ready(r, edges) == {} then r else Ready(r, edges)) &&
            (Ready(r, edges) == {} ==> k == |Layers(nodes, edges)| - 1) &&
            (k == |Layers(nodes, edges)| - 1 ==> Ready(r, edges) == {} || r == Ready(r, edges))
    decreases k
  {
    var ready := Ready(nodes, edges);
    if ready != {} && k > 0 {
      LayersAreRounds(nodes - ready, edges, k - 1);
      RestShift(nodes, edges, k - 1);
    }
    if ready != {} && k == 0 && |Layers(nodes, edges)| == 1 {
      assert |Layers(nodes - ready, edges)| == 0;
      NoLayers(nodes - ready, edges);
      assert forall x | x in nodes :: x !in nodes - ready;
      assert nodes == ready;
    }
  }

  lemma LayersStep(nodes: set<Identifier>, edges: set<Edge>, x: Identifier)
    requires x in Ready(nodes, edges)
    ensures Layers(nodes, edges) == [Ready(nodes, edges)] + Layers(nodes - Ready(nodes, edges), edges)
  {
  }

  lemma NoLayers(nodes: set<Identifier>, edges: set<Edge>)
    requires |Layers(nodes, edges)| == 0
    ensures nodes == {}
  {
  }

  lemma {:induction false} RestShrinks(nodes: set<Identifier>, edges: set<Edge>, j: nat, k: nat)
    requires j <= k
    ensures Rest(nodes, edges, k) <= Rest(nodes, edges, j)
  {
    if j < k { RestShrinks(nodes, edges, j, k - 1); }
  }

  lemma {:induction false} RestStuck(nodes: set<Identifier>, edges: set<Edge>, j: nat, k: nat)
    requires j <= k && Ready(Rest(nodes, edges, j), edges) == {}
    ensures Rest(nodes, edges, k) == Rest(nodes, edges, j)
  {
    if j < k { RestStuck(nodes, edges, j, k - 1); }
  }

  /** After as many rounds as there are layers, only a stuck remainder can be left. */
  lemma RestAfterLayers(nodes: set<Identifier>, edges: set<Edge>)
    ensures var n := |Layers(nodes, edges)|;
            Rest(nodes, edges, n) == (if FellBack(Layers(nodes, edges), edges) then Layers(nodes, edges)[n - 1] else {})
  {
    var n := |Layers(nodes, edges)|;
    if n > 0 {
      LayersAreRounds(nodes, edges, n - 1);
      var r := Rest(nodes, edges, n - 1);
      if Ready(r, edges) != {} {
        assert !Blocked(var x :| x in r; x, r, edges);
        ReadyOfReady(r, edges);
      }
    }
  }

  lemma ReadyOfReady(rest: set<Identifier>, edges: set<Edge>)
    ensures Ready(Ready(rest, edges), edges) == Ready(rest, edges)
  {
  }

  // ---------------------------------------------------------------------------------------
  // Layer index is chain depth
  // ---------------------------------------------------------------------------------------

  /** A regular layer holds exactly the vertices whose longest chain has that many edges. */
  lemma LayerIsDepth(nodes: set<Identifier>, edges: set<Edge>, k: nat, x: Identifier)
    requires k < |Layers(nodes, edges)|
    requires !(k == |Layers(nodes, edges)| - 1 && FellBack(Layers(nodes, edges), edges))
    ensures x in Layers(nodes, edges)[k] <==> DepthIs(x, k, nodes, edges)
  {
    LayersAreRounds(nodes, edges, k);
    RestIffChain(x, k, nodes, edges);
    RestIffChain(x, k + 1, nodes, edges);
  }

  /** Every chain length that occurs below the fallback is the index of a layer. */
  lemma DepthHasLayer(nodes: set<Identifier>, edges: set<Edge>, k: nat, x: Identifier)
    requires DepthIs(x, k, nodes, edges)
    ensures k < |Layers(nodes, edges)| && x in Layers(nodes, edges)[k]
    ensures !(k == |Layers(nodes, edges)| - 1 && FellBack(Layers(nodes, edges), edges))
  {
    var n := |Layers(nodes, edges)|;
    RestIffChain(x, k, nodes, edges);
    RestIffChain(x, k + 1, nodes, edges);
    if n <= k {
      LeftoverIsStuck(nodes, edges, k, x);
      assert false;
    }
    LayersAreRounds(nodes, edges, k);
    if k == n - 1 && FellBack(Layers(nodes, edges), edges) {
      LeftoverIsStuck(nodes, edges, k, x);
      assert false;
    }
  }

  /** What outlives the regular layers never becomes ready. */
  lemma LeftoverIsStuck(nodes: set<Identifier>, edges: set<Edge>, k: nat, x: Identifier)
    requires x in Rest(nodes, edges, k)
    requires var n := |Layers(nodes, edges)|;
             n <= k || (k == n - 1 && FellBack(Layers(nodes, edges), edges))
    ensures x in Rest(nodes, edges, k + 1)
  {
    var n := |Layers(nodes, edges)|;
    if !FellBack(Layers(nodes, edges), edges) {
      RestAfterLayers(nodes, edges);
      RestShrinks(nodes, edges, n, k);
      assert false;
    }
    StuckAtEnd(nodes, edges);
    RestStuck(nodes, edges, n - 1, k);
    RestStuck(nodes, edges, n - 1, k + 1);
  }

  lemma StuckAtEnd(nodes: set<Identifier>, edges: set<Edge>)
    requires FellBack(Layers(nodes, edges), edges)
    ensures Ready(Rest(nodes, edges, |Layers(nodes, edges)| - 1), edges) == {}
  {
    var n := |Layers(nodes, edges)|;
    LayersAreRounds(nodes, edges, n - 1);
    ReadyOfReady(Rest(nodes, edges, n - 1), edges);
  }

  // ---------------------------------------------------------------------------------------
  // The fallback layer is what lies on or after a cycle
  // ---------------------------------------------------------------------------------------

  ghost function Elements(c: seq<Identifier>): set<Identifier> {
    set x | x in c
  }

  lemma {:induction false} NoRepeatCount(c: seq<Identifier>)
    requires !Repeats(c)
    ensures |Elements(c)| == |c|
  {
    if c != [] {
      var front := c[..|c| - 1];
      var last := c[|c| - 1];
      assert forall i, j :: 0 <= i < j < |front| ==> c[i] != c[j];
      NoRepeatCount(front);
      assert last !in front;
      assert Elements(c) == Elements(front) + {last};
    } else {
      assert Elements(c) == {};
    }
  }

  lemma SubsetCount(a: set<Identifier>, b: set<Identifier>)
    requires a <= b
    ensures |a| <= |b|
  {
    assert a + (b - a) == b;
  }

  /** Pigeonhole: a chain with more vertices than the graph repeats one. */
  lemma LongChainRepeats(c: seq<Identifier>, nodes: set<Identifier>)
    requires |c| > |nodes| && forall i | 0 <= i < |c| :: c[i] in nodes
    ensures Repeats(c)
  {
    if !Repeats(c) {
      NoRepeatCount(c);
      SubsetCount(Elements(c), nodes);
    }
  }

  /** Going round the cycle once more gives a longer chain with the same end. */
  lemma PumpChain(c: seq<Identifier>, nodes: set<Identifier>, edges: set<Edge>) returns (d: seq<Identifier>)
    requires IsChain(c, nodes, edges) && Repeats(c)
    ensures IsChain(d, nodes, edges) && Repeats(d)
    ensures |d| > |c| && d[|d| - 1] == c[|c| - 1]
  {
    var i, j :| 0 <= i < j < |c| && c[i] == c[j];
    d := c[..j + 1] + c[i + 1..];
    forall k | 0 < k < |d|
      ensures Edge(d[k - 1], d[k]) in edges
    {
      if k <= j {
        assert d[k - 1] == c[k - 1] && d[k] == c[k];
      } else {
        var m := k - j + i;
        assert d[k] == c[m];
        assert d[k - 1] == c[m - 1];
      }
    }
    assert d[i] == d[j];
  }

  lemma {:induction false} CycleGivesLongChains(c: seq<Identifier>, k: nat, nodes: set<Identifier>, edges: set<Edge>)
    requires IsChain(c, nodes, edges) && Repeats(c)
    ensures HasChain(c[|c| - 1], k, nodes, edges)
    decreases k - |c|
  {
    if |c| > k {
      assert EndsIn(c, c[|c| - 1], |c| - 1, nodes, edges);
      ShorterChains(c[|c| - 1], k, |c| - 1, nodes, edges);
    } else {
      var d := PumpChain(c, nodes, edges);
      CycleGivesLongChains(d, k, nodes, edges);
    }
  }

  /** Being on or after a cycle is having chains of every length behind you. */
  lemma AfterCycleIffLongChains(x: Identifier, nodes: set<Identifier>, edges: set<Edge>)
    ensures AfterCycle(x, nodes, edges) ==> forall k: nat :: HasChain(x, k, nodes, edges)
    ensures HasChain(x, |nodes|, nodes, edges) ==> AfterCycle(x, nodes, edges)
  {
    if AfterCycle(x, nodes, edges) {
      var c :| IsChain(c, nodes, edges) && c[|c| - 1] == x && Repeats(c);
      forall k: nat ensures HasChain(x, k, nodes, edges) {
        CycleGivesLongChains(c, k, nodes, edges);
      }
    }
    if HasChain(x, |nodes|, nodes, edges) {
      var c :| EndsIn(c, x, |nodes|, nodes, edges);
      LongChainRepeats(c, nodes);
    }
  }

  /** Off every cycle, the longest chain has a definite length. */
  lemma {:induction false} DepthExists(x: Identifier, k: nat, nodes: set<Identifier>, edges: set<Edge>)
    returns (d: nat)
    requires x in nodes && !HasChain(x, k, nodes, edges)
    ensures d < k && DepthIs(x, d, nodes, edges)
  {
    if k == 0 {
      assert EndsIn([x], x, 0, nodes, edges);
      assert false;
    } else if HasChain(x, k - 1, nodes, edges) {
      d := k - 1;
    } else {
      d := DepthExists(x, k - 1, nodes, edges);
    }
  }

  /**
   The exact meaning of the layers, cyclic or not: a vertex off every cycle sits in the layer
   numbered by its longest chain, and never in a fallback layer; a vertex on or after a cycle
   sits in the last layer, which then is a fallback.
   */
  lemma LayersExact(nodes: set<Identifier>, edges: set<Edge>, x: Identifier)
    requires x in nodes
    ensures var ls := Layers(nodes, edges);
            if AfterCycle(x, nodes, edges) then FellBack(ls, edges) && x in ls[|ls| - 1]
            else exists k: nat :: k < |ls| && x in ls[k] && DepthIs(x, k, nodes, edges)
                                  && !(k == |ls| - 1 && FellBack(ls, edges))
  {
    var ls := Layers(nodes, edges);
    AfterCycleIffLongChains(x, nodes, edges);
    if AfterCycle(x, nodes, edges) {
      RestIffChain(x, |ls|, nodes, edges);
      RestAfterLayers(nodes, edges);
    } else {
      var k := DepthExists(x, |nodes|, nodes, edges);
      DepthHasLayer(nodes, edges, k, x);
    }
  }

  /** The fallback layer is taken only for a genuine cycle, and holds nothing else. */
  lemma FallbackExact(nodes: set<Identifier>, edges: set<Edge>, x: Identifier)
    requires FellBack(Layers(nodes, edges), edges)
    ensures x in Layers(nodes, edges)[|Layers(nodes, edges)| - 1] <==> x in nodes && AfterCycle(x, nodes, edges)
  {
    var ls := Layers(nodes, edges);
    if x in nodes && AfterCycle(x, nodes, edges) {
      LayersExact(nodes, edges, x);
    }
    if x in ls[|ls| - 1] {
      var n := |ls| - 1;
      LayersAreRounds(nodes, edges, n);
      ReadyOfReady(Rest(nodes, edges, n), edges);
      RestShrinks(nodes, edges, 0, n);
      RestStuckAt(nodes, edges, n, |nodes|);
      RestIffChain(x, |nodes|, nodes, edges);
      AfterCycleIffLongChains(x, nodes, edges);
    }
  }

  lemma RestStuckAt(nodes: set<Identifier>, edges: set<Edge>, j: nat, k: nat)
    requires Ready(Rest(nodes, edges, j), edges) == {}
    ensures Rest(nodes, edges, j) <= Rest(nodes, edges, k)
  {
    if j <= k { RestStuck(nodes, edges, j, k); } else { RestShrinks(nodes, edges, k, j); }
  }

  lemma AcyclicNeverFallsBack(nodes: set<Identifier>, edges: set<Edge>)
    requires Acyclic(nodes, edges)
    ensures !FellBack(Layers(nodes, edges), edges)
  {
    var ls := Layers(nodes, edges);
    if FellBack(ls, edges) {
      LayersAreRounds(nodes, edges, |ls| - 1);
      var x :| x in Rest(nodes, edges, |ls| - 1);
      ReadyOfReady(Rest(nodes, edges, |ls| - 1), edges);
      FallbackExact(nodes, edges, x);
    }
  }

  // ---------------------------------------------------------------------------------------
  // Consequences used by the plan
  // ---------------------------------------------------------------------------------------

  ghost predicate InLayer(x: Identifier, k: int, layers: seq<set<Identifier>>) {
    0 <= k < |layers| && x in layers[k]
  }

  /** Every vertex is in some layer. */
  lemma {:induction false} LayersCover(nodes: set<Identifier>, edges: set<Edge>, x: Identifier) returns (k: nat)
    requires x in nodes
    ensures InLayer(x, k, Layers(nodes, edges))
    decreases nodes
  {
    var ready := Ready(nodes, edges);
    if ready == {} || x in ready {
      k := 0;
    } else {
      k := LayersCover(nodes - ready, edges, x);
      k := k + 1;
    }
  }

  lemma {:induction false} LayersWithin(nodes: set<Identifier>, edges: set<Edge>, x: Identifier, k: nat)
    requires InLayer(x, k, Layers(nodes, edges))
    ensures x in nodes
    decreases k
  {
    if k > 0 {
      LayersWithin(nodes - Ready(nodes, edges), edges, x, k - 1);
    }
  }

  lemma {:induction false} LayersDisjoint(nodes: set<Identifier>, edges: set<Edge>, j: nat, k: nat, x: Identifier)
    requires j < k && InLayer(x, j, Layers(nodes, edges)) && InLayer(x, k, Layers(nodes, edges))
    ensures false
    decreases j
  {
    var ready := Ready(nodes, edges);
    if j == 0 {
      LayersWithin(nodes - ready, edges, x, k - 1);
    } else {
      LayersDisjoint(nodes - ready, edges, j - 1, k - 1, x);
    }
  }

  /** The layers are non-empty, disjoint, and together hold every vertex once. */
  lemma LayersPartition(nodes: set<Identifier>, edges: set<Edge>)
    ensures var ls := Layers(nodes, edges);
            && (forall x :: x in nodes <==> exists k :: InLayer(x, k, ls))
            && (forall j, k, x :: InLayer(x, j, ls) && InLayer(x, k, ls) ==> j == k)
            && (forall k :: 0 <= k < |ls| ==> ls[k] != {})
  {
    var ls := Layers(nodes, edges);
    forall x ensures x in nodes <==> exists k :: InLayer(x, k, ls) {
      if x in nodes { var k := LayersCover(nodes, edges, x); }
      if k :| InLayer(x, k, ls) { LayersWithin(nodes, edges, x, k); }
    }
    forall j, k, x | InLayer(x, j, ls) && InLayer(x, k, ls)
      ensures j == k
    {
      if j < k { LayersDisjoint(nodes, edges, j, k, x); }
      if k < j { LayersDisjoint(nodes, edges, k, j, x); }
    }
    forall k | 0 <= k < |ls| ensures ls[k] != {} {
      LayersAreRounds(nodes, edges, k);
    }
  }

  /** An edge into a regular layer starts in a strictly earlier layer. */
  lemma EdgeGoesUp(nodes: set<Identifier>, edges: set<Edge>, a: Identifier, b: Identifier, k: nat)
    requires a in nodes && Edge(a, b) in edges
    requires k < |Layers(nodes, edges)| && b in Layers(nodes, edges)[k]
    requires !(k == |Layers(nodes, edges)| - 1 && FellBack(Layers(nodes, edges), edges))
    ensures exists j :: 0 <= j < k && a in Layers(nodes, edges)[j]
  {
    var ls := Layers(nodes, edges);
    LayerIsDepth(nodes, edges, k, b);
    ChainEndsInside(b, k, nodes, edges);
    if HasChain(a, k, nodes, edges) {
      ExtendChain(a, b, k, nodes, edges);
    }
    var j := DepthExists(a, k, nodes, edges);
    DepthHasLayer(nodes, edges, j, a);
  }

  /** Off every cycle, a vertex sits in a later layer than each of its predecessors. */
  lemma EdgeOrder(nodes: set<Identifier>, edges: set<Edge>, a: Identifier, b: Identifier) returns (j: nat, k: nat)
    requires a in nodes && b in nodes && Edge(a, b) in edges && !AfterCycle(b, nodes, edges)
    ensures j < k && InLayer(a, j, Layers(nodes, edges)) && InLayer(b, k, Layers(nodes, edges))
  {
    var ls := Layers(nodes, edges);
    LayersExact(nodes, edges, b);
    k :| k < |ls| && b in ls[k] && DepthIs(b, k, nodes, edges) && !(k == |ls| - 1 && FellBack(ls, edges));
    EdgeGoesUp(nodes, edges, a, b, k);
    j :| 0 <= j < k && a in ls[j];
  }

  /** Any numbering that strictly grows along edges gives x at least its layer index. */
  lemma {:induction false} NumberingAboveChains(x: Identifier, k: nat, nodes: set<Identifier>, edges: set<Edge>,
                                                number: map<Identifier, nat>)
    requires nodes <= number.Keys
    requires forall a, b | a in nodes && b in nodes && Edge(a, b) in edges :: number[a] < number[b]
    requires HasChain(x, k, nodes, edges)
    ensures x in nodes && k <= number[x]
    decreases k
  {
    ChainEndsInside(x, k, nodes, edges);
    if k > 0 {
      var y := LastEdge(x, k - 1, nodes, edges);
      NumberingAboveChains(y, k - 1, nodes, edges, number);
    }
  }

  /** A graph that can be numbered upwards along its edges has no cycle. */
  lemma NumberingIsAcyclic(nodes: set<Identifier>, edges: set<Edge>, number: map<Identifier, nat>)
    requires nodes <= number.Keys
    requires forall a, b | a in nodes && b in nodes && Edge(a, b) in edges :: number[a] < number[b]
    ensures Acyclic(nodes, edges)
  {
    forall x | x in nodes
      ensures !AfterCycle(x, nodes, edges)
    {
      if AfterCycle(x, nodes, edges) {
        AfterCycleIffLongChains(x, nodes, edges);
        NumberingAboveChains(x, number[x] + 1, nodes, edges, number);
      }
    }
  }

  /** No phasing that respects the edges uses fewer phases than Layers does. */
  lemma LayersFewest(nodes: set<Identifier>, edges: set<Edge>, number: map<Identifier, nat>, phases: nat)
    requires nodes <= number.Keys
    requires forall a, b | a in nodes && b in nodes && Edge(a, b) in edges :: number[a] < number[b]
    requires forall x | x in nodes :: number[x] < phases
    ensures |Layers(nodes, edges)| <= phases
  {
    var n := |Layers(nodes, edges)|;
    if n > 0 {
      NumberingIsAcyclic(nodes, edges, number);
      AcyclicNeverFallsBack(nodes, edges);
      LayersAreRounds(nodes, edges, n - 1);
      var x :| x in Layers(nodes, edges)[n - 1];
      LayerIsDepth(nodes, edges, n - 1, x);
      NumberingAboveChains(x, n - 1, nodes, edges, number);
    }
  }
}
