/** The layered proximity graph: what is well formed, and what is reachable in one layer. */
module HnswGraph {
  import opened Documents
  import opened Sorting

  datatype Node = Node(id: nat, superseded: bool, vector: Vector, links: seq<seq<nat>>)

  type Nodes = seq<Node>

  function Degree(m: nat, layer: nat): nat { if layer == 0 then 2 * m else m }

  predicate HasLayer(nodes: Nodes, n: nat, layer: nat) { n < |nodes| && layer < |nodes[n].links| }

  /** A node's list in a layer; a node that does not reach the layer has none. */
  function Neighbours(nodes: Nodes, n: nat, layer: nat): seq<nat> {
    if HasLayer(nodes, n, layer) then nodes[n].links[layer] else []
  }

  /** A list in this layer: distinct other nodes that reach the layer, no more than the degree bound. */
  ghost predicate ListOk(nodes: Nodes, m: nat, n: nat, layer: nat, list: seq<nat>) {
    Distinct(list) && |list| <= Degree(m, layer) && forall x :: x in list ==> x != n && HasLayer(nodes, x, layer)
  }

  ghost predicate GraphOk(nodes: Nodes, m: nat) {
    forall n, layer :: HasLayer(nodes, n, layer) ==> ListOk(nodes, m, n, layer, Neighbours(nodes, n, layer))
  }

  /** The entry node exists and reaches the top layer, and nothing reaches higher. */
  ghost predicate EntryOk(nodes: Nodes, entry: nat, maxLayer: int) {
    if nodes == [] then maxLayer == -1
    else entry < |nodes| && |nodes[entry].links| == maxLayer + 1 &&
         forall n :: 0 <= n < |nodes| ==> 1 <= |nodes[n].links| <= maxLayer + 1
  }

  /** Each id has exactly one node that is not superseded, the one the id index names. */
  ghost predicate IdsOk(nodes: Nodes, ordinals: map<nat, nat>) {
    (forall n :: 0 <= n < |nodes| ==> nodes[n].id in ordinals) &&
    (forall id :: id in ordinals ==> ordinals[id] < |nodes| && nodes[ordinals[id]].id == id) &&
    (forall n :: 0 <= n < |nodes| ==> (!nodes[n].superseded <==> ordinals[nodes[n].id] == n))
  }

  // ----------------------------------------------------------------------- reaching

  predicate Step(nodes: Nodes, layer: nat, a: nat, b: nat) { b in Neighbours(nodes, a, layer) && b < |nodes| }

  ghost predicate Path(nodes: Nodes, layer: nat, p: seq<nat>) {
    p != [] && forall i, j :: 0 <= i < j < |p| && j == i + 1 ==> Step(nodes, layer, p[i], p[j])
  }

  ghost predicate Reaches(nodes: Nodes, layer: nat, from: nat, to: nat) {
    exists p :: Path(nodes, layer, p) && p[0] == from && p[|p| - 1] == to
  }

  lemma ReachesSelf(nodes: Nodes, layer: nat, n: nat)
    ensures Reaches(nodes, layer, n, n)
  {
    assert Path(nodes, layer, [n]);
  }

  lemma ReachesNext(nodes: Nodes, layer: nat, from: nat, n: nat, next: nat)
    requires Reaches(nodes, layer, from, n) && Step(nodes, layer, n, next)
    ensures Reaches(nodes, layer, from, next)
  {
    var p :| Path(nodes, layer, p) && p[0] == from && p[|p| - 1] == n;
    assert Path(nodes, layer, p + [next]);
  }

  /** A set that is closed under links holds everything reachable from its members. */
  lemma {:induction false} ClosedHolds(nodes: Nodes, layer: nat, s: set<nat>, p: seq<nat>)
    requires Path(nodes, layer, p) && p[0] in s
    requires forall n, x :: n in s && Step(nodes, layer, n, x) ==> x in s
    ensures p[|p| - 1] in s
    decreases |p|
  {
    if |p| > 1 {
      var q := p[..|p| - 1];
      assert Path(nodes, layer, q);
      ClosedHolds(nodes, layer, s, q);
      assert Step(nodes, layer, p[|p| - 2], p[|p| - 1]);
    }
  }

  /** What is reachable in a layer of a well-formed graph reaches that layer. */
  lemma {:induction false} ReachedHasLayer(nodes: Nodes, m: nat, layer: nat, p: seq<nat>)
    requires GraphOk(nodes, m) && Path(nodes, layer, p) && HasLayer(nodes, p[0], layer)
    ensures HasLayer(nodes, p[|p| - 1], layer)
    decreases |p|
  {
    if |p| > 1 {
      var q := p[..|p| - 1];
      assert Path(nodes, layer, q);
      ReachedHasLayer(nodes, m, layer, q);
      assert Step(nodes, layer, p[|p| - 2], p[|p| - 1]);
    }
  }

  /** A node no list of the layer mentions is reachable only from itself. */
  ghost predicate Unlinked(nodes: Nodes, n: nat, layer: nat) {
    forall k :: n !in Neighbours(nodes, k, layer)
  }

  lemma UnlinkedUnreached(nodes: Nodes, layer: nat, from: nat, to: nat)
    requires Unlinked(nodes, to, layer) && Reaches(nodes, layer, from, to)
    ensures from == to
  {
    var p :| Path(nodes, layer, p) && p[0] == from && p[|p| - 1] == to;
    assert |p| > 1 ==> Step(nodes, layer, p[|p| - 2], p[|p| - 1]);
  }
}

/** Algorithm 4 of Malkov and Yashunin, with backfill. */
module NeighbourChoice {
  import opened Sorting

  datatype Scored = Scored(score: real, node: nat)

  ghost predicate DistinctNodes(scored: seq<Scored>) {
    forall i, j :: 0 <= i < j < |scored| ==> scored[i].node != scored[j].node
  }

  /** An already picked neighbour lies nearer to the candidate than the node being linked. */
  predicate Covered(picked: seq<nat>, c: Scored, between: (nat, nat) -> real) {
    exists i :: 0 <= i < |picked| && between(c.node, picked[i]) > c.score
  }

  /** The first candidates that no earlier pick covers, at most m. */
  function Diverse(scored: seq<Scored>, m: nat, between: (nat, nat) -> real): seq<nat> {
    if scored == [] then []
    else
      var n := |scored| - 1;
      var picked := Diverse(scored[..n], m, between);
      if |picked| >= m || Covered(picked, scored[n], between) then picked else picked + [scored[n].node]
  }

  /** The best remaining candidates, until there are m. */
  function Backfill(scored: seq<Scored>, m: nat, picked: seq<nat>): seq<nat> {
    if scored == [] then picked
    else
      var n := |scored| - 1;
      var filled := Backfill(scored[..n], m, picked);
      if |filled| >= m || scored[n].node in filled then filled else filled + [scored[n].node]
  }

  function Select(scored: seq<Scored>, m: nat, between: (nat, nat) -> real): seq<nat> {
    Backfill(scored, m, Diverse(scored, m, between))
  }

  method SelectNeighbours(scored: seq<Scored>, m: nat, between: (nat, nat) -> real) returns (picked: seq<nat>)
    ensures picked == Select(scored, m, between)
  {
    picked := [];
    var i := 0;
    while i < |scored| && |picked| < m
      invariant 0 <= i <= |scored| && picked == Diverse(scored[..i], m, between)
    {
      var c := scored[i];
      assert scored[..i + 1][..i] == scored[..i];
      var keep, j := true, 0;
      while j < |picked|
        invariant 0 <= j <= |picked| && keep && forall k :: 0 <= k < j ==> between(c.node, picked[k]) <= c.score
      {
        if between(c.node, picked[j]) > c.score {
          keep := false;
          break;
        }
        j := j + 1;
      }
      assert keep <==> !Covered(picked, c, between);
      if keep {
        picked := picked + [c.node];
      }
      i := i + 1;
    }
    DiverseStops(scored, m, between, i);
    ghost var diverse := picked;
    if |picked| < m {
      i := 0;
      while i < |scored| && |picked| < m
        invariant 0 <= i <= |scored| && picked == Backfill(scored[..i], m, diverse)
      {
        assert scored[..i + 1][..i] == scored[..i];
        if scored[i].node !in picked {
          picked := picked + [scored[i].node];
        }
        i := i + 1;
      }
      BackfillStops(scored, m, diverse, i);
    } else {
      BackfillStops(scored, m, diverse, 0);
    }
  }

  lemma {:induction false} DiverseStops(scored: seq<Scored>, m: nat, between: (nat, nat) -> real, i: nat)
    requires i <= |scored| && (i == |scored| || |Diverse(scored[..i], m, between)| >= m)
    ensures Diverse(scored, m, between) == Diverse(scored[..i], m, between)
  {
    if i < |scored| {
      var n := |scored| - 1;
      assert scored[..n][..i] == scored[..i];
      DiverseStops(scored[..n], m, between, i);
    } else {
      assert scored[..i] == scored;
    }
  }

  lemma {:induction false} BackfillStops(scored: seq<Scored>, m: nat, picked: seq<nat>, i: nat)
    requires i <= |scored| && (i == |scored| || |Backfill(scored[..i], m, picked)| >= m)
    ensures Backfill(scored, m, picked) == Backfill(scored[..i], m, picked)
  {
    if i < |scored| {
      var n := |scored| - 1;
      assert scored[..n][..i] == scored[..i];
      BackfillStops(scored[..n], m, picked, i);
    } else {
      assert scored[..i] == scored;
    }
  }

  function NodesOf(scored: seq<Scored>): set<nat> { set c | c in scored :: c.node }

  lemma NodesOfLast(scored: seq<Scored>)
    requires scored != []
    ensures NodesOf(scored) == NodesOf(scored[..|scored| - 1]) + {scored[|scored| - 1].node}
  {
    assert scored == scored[..|scored| - 1] + [scored[|scored| - 1]];
  }

  lemma {:induction false} DiverseWithin(scored: seq<Scored>, m: nat, between: (nat, nat) -> real)
    requires DistinctNodes(scored)
    ensures var d := Diverse(scored, m, between);
      Distinct(d) && |d| <= m && forall x :: x in d ==> x in NodesOf(scored)
  {
    if scored != [] {
      var n := |scored| - 1;
      DiverseWithin(scored[..n], m, between);
      NodesOfLast(scored);
      assert scored[n].node !in NodesOf(scored[..n]);
    }
  }

  lemma {:induction false} BackfillWithin(scored: seq<Scored>, m: nat, picked: seq<nat>)
    requires Distinct(picked) && |picked| <= m
    ensures var f := Backfill(scored, m, picked);
      Distinct(f) && |f| <= m && |f| >= |picked| && f[..|picked|] == picked &&
      (forall x :: x in f ==> x in picked || x in NodesOf(scored)) &&
      (|f| < m ==> forall x :: x in NodesOf(scored) ==> x in f)
  {
    if scored != [] {
      BackfillWithin(scored[..|scored| - 1], m, picked);
      NodesOfLast(scored);
    }
  }

  /** Everything or m of them, distinct, the diverse picks first. */
  lemma SelectIs(scored: seq<Scored>, m: nat, between: (nat, nat) -> real)
    requires DistinctNodes(scored)
    ensures var s := Select(scored, m, between);
      Distinct(s) && |s| == (if m < |scored| then m else |scored|) && (forall x :: x in s ==> x in NodesOf(scored)) &&
      var d := Diverse(scored, m, between); |d| <= |s| && s[..|d|] == d
  {
    DiverseWithin(scored, m, between);
    var d := Diverse(scored, m, between);
    BackfillWithin(scored, m, d);
    var s := Backfill(scored, m, d);
    DistinctSize(s, NodesOf(scored));
    NodeCount(scored);
  }

  lemma {:induction false} NodeCount(scored: seq<Scored>)
    requires DistinctNodes(scored)
    ensures |NodesOf(scored)| == |scored|
  {
    if scored != [] {
      var n := |scored| - 1;
      NodeCount(scored[..n]);
      NodesOfLast(scored);
      assert scored[n].node !in NodesOf(scored[..n]);
    }
  }

  /** A list of distinct members of a set is no longer than the set, and as long if it holds every one. */
  lemma {:induction false} DistinctSize(s: seq<nat>, all: set<nat>)
    requires Distinct(s) && forall x :: x in s ==> x in all
    ensures |s| <= |all| && ((forall x :: x in all ==> x in s) ==> |s| == |all|)
  {
    if s == [] {
      assert (forall x :: x in all ==> x in s) ==> all == {};
    } else {
      var n := |s| - 1;
      DistinctSize(s[..n], all - {s[n]});
      assert forall x :: x in s <==> x in s[..n] || x == s[n];
      assert s[n] in all && |all - {s[n]}| == |all| - 1;
    }
  }

  /** No pick is nearer to an earlier pick than to the node being linked. */
  lemma {:induction false} DiverseIsDiverse(scored: seq<Scored>, m: nat, between: (nat, nat) -> real, i: nat, j: nat)
    requires DistinctNodes(scored) && i < j < |Diverse(scored, m, between)|
    ensures exists c :: c in scored && c.node == Diverse(scored, m, between)[j] &&
                        between(c.node, Diverse(scored, m, between)[i]) <= c.score
  {
    var n := |scored| - 1;
    var before := Diverse(scored[..n], m, between);
    if j < |before| {
      DiverseIsDiverse(scored[..n], m, between, i, j);
    } else {
      assert scored[n] in scored && !Covered(before, scored[n], between);
    }
  }

  /** A candidate that was passed over is covered by a pick, or the list was already full. */
  lemma {:induction false} PassedOver(scored: seq<Scored>, m: nat, between: (nat, nat) -> real, c: Scored)
    requires c in scored && c.node !in Diverse(scored, m, between) && |Diverse(scored, m, between)| < m
    ensures Covered(Diverse(scored, m, between), c, between)
  {
    var n := |scored| - 1;
    var before := Diverse(scored[..n], m, between);
    if c != scored[n] {
      assert c in scored[..n];
      PassedOver(scored[..n], m, between, c);
      var i :| 0 <= i < |before| && between(c.node, before[i]) > c.score;
      assert Diverse(scored, m, between)[i] == before[i];
    }
  }
}
