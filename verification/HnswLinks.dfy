/** Changing the lists of the graph: choice of neighbours, back links, and what linking a new node does to every list. */
module HnswLinks {
  import opened Documents
  import opened Sorting
  import opened HnswGraph
  import opened NeighbourChoice
  import opened HnswSearch

  type Similarity = (Vector, Vector) -> real

  predicate InRange(nodes: Nodes, list: seq<nat>) { forall i :: 0 <= i < |list| ==> list[i] < |nodes| }

  function ScoredBy(nodes: Nodes, n: nat, cands: seq<nat>, close: Similarity): (r: seq<Scored>)
    requires n < |nodes| && InRange(nodes, cands)
    ensures |r| == |cands| && forall i :: 0 <= i < |cands| ==> r[i] == Scored(close(nodes[n].vector, nodes[cands[i]].vector), cands[i])
  {
    seq(|cands|, i requires 0 <= i < |cands| => Scored(close(nodes[n].vector, nodes[cands[i]].vector), cands[i]))
  }

  predicate Higher(a: Scored, b: Scored) { a.score >= b.score }

  /** `score_and_sort`: the candidates by similarity to the node, best first. */
  function ScoreAndSort(nodes: Nodes, n: nat, cands: seq<nat>, close: Similarity): seq<Scored>
    requires n < |nodes| && InRange(nodes, cands)
  {
    Sort(ScoredBy(nodes, n, cands, close), Higher)
  }

  function Between(nodes: Nodes, close: Similarity): (nat, nat) -> real {
    (a: nat, b: nat) => if a < |nodes| && b < |nodes| then close(nodes[a].vector, nodes[b].vector) else 0.0
  }

  /** The neighbours a node gets from candidates. */
  function Chosen(nodes: Nodes, n: nat, cands: seq<nat>, m: nat, close: Similarity): seq<nat>
    requires n < |nodes| && InRange(nodes, cands)
  {
    Select(ScoreAndSort(nodes, n, cands, close), m, Between(nodes, close))
  }

  lemma SortedScores(nodes: Nodes, n: nat, cands: seq<nat>, close: Similarity)
    requires n < |nodes| && InRange(nodes, cands) && Distinct(cands)
    ensures var s := ScoreAndSort(nodes, n, cands, close);
      DistinctNodes(s) && SortedBy(s, Higher) && NodesOf(s) == (set x | x in cands) && |s| == |cands|
  {
    var scored := ScoredBy(nodes, n, cands, close);
    var s := Sort(scored, Higher);
    assert TotalPreorder(Higher);
    SortSorted(scored, Higher);
    SameElements(scored, s);
    hide Sort;
    forall i, j | 0 <= i < j < |scored|
      ensures scored[i] != scored[j]
    {
    }
    MultisetDistinct(scored, s);
    forall i, j | 0 <= i < j < |s|
      ensures s[i].node != s[j].node
    {
      assert s[i] in scored && s[j] in scored;
      var a :| 0 <= a < |scored| && scored[a] == s[i];
      var b :| 0 <= b < |scored| && scored[b] == s[j];
    }
    forall x | x in cands
      ensures x in NodesOf(s)
    {
      var i :| 0 <= i < |cands| && cands[i] == x;
      assert scored[i] in s;
    }
    forall x | x in NodesOf(s)
      ensures x in cands
    {
      var c :| c in s && c.node == x;
      assert c in scored;
    }
  }

  /** Distinct members of the candidates, as many as fit. */
  lemma ChosenIs(nodes: Nodes, n: nat, cands: seq<nat>, m: nat, close: Similarity)
    requires n < |nodes| && InRange(nodes, cands) && Distinct(cands)
    ensures var c := Chosen(nodes, n, cands, m, close);
      Distinct(c) && |c| == (if m < |cands| then m else |cands|) && forall x :: x in c ==> x in cands
  {
    hide Select, ScoreAndSort;
    SortedScores(nodes, n, cands, close);
    SelectIs(ScoreAndSort(nodes, n, cands, close), m, Between(nodes, close));
  }

  method Choose(nodes: Nodes, n: nat, cands: seq<nat>, m: nat, close: Similarity) returns (chosen: seq<nat>)
    requires n < |nodes| && InRange(nodes, cands)
    ensures chosen == Chosen(nodes, n, cands, m, close)
  {
    chosen := SelectNeighbours(ScoreAndSort(nodes, n, cands, close), m, Between(nodes, close));
  }

  // -------------------------------------------------------------------- changing lists

  function SetList(nodes: Nodes, n: nat, layer: nat, list: seq<nat>): Nodes
    requires HasLayer(nodes, n, layer)
  {
    nodes[n := nodes[n].(links := nodes[n].links[layer := list])]
  }

  /** Same nodes reaching the same layers; only lists may differ. */
  ghost predicate SameShape(a: Nodes, b: Nodes) {
    |a| == |b| && forall n :: 0 <= n < |a| ==>
      a[n].id == b[n].id && a[n].superseded == b[n].superseded && a[n].vector == b[n].vector && |a[n].links| == |b[n].links|
  }

  /** Only the lists of this layer differ. */
  ghost predicate SameElsewhere(a: Nodes, b: Nodes, layer: nat) {
    forall n, l :: l != layer ==> Neighbours(a, n, l) == Neighbours(b, n, l)
  }

  lemma SetListIs(nodes: Nodes, n: nat, layer: nat, list: seq<nat>)
    requires HasLayer(nodes, n, layer)
    ensures var next := SetList(nodes, n, layer, list);
      SameShape(nodes, next) && SameElsewhere(nodes, next, layer) && Neighbours(next, n, layer) == list &&
      (forall k :: k != n ==> Neighbours(next, k, layer) == Neighbours(nodes, k, layer)) &&
      (forall k, l :: HasLayer(next, k, l) <==> HasLayer(nodes, k, l))
  {
  }

  lemma SetListOk(nodes: Nodes, m: nat, n: nat, layer: nat, list: seq<nat>)
    requires GraphOk(nodes, m) && HasLayer(nodes, n, layer) && ListOk(nodes, m, n, layer, list)
    ensures GraphOk(SetList(nodes, n, layer, list), m)
  {
    SetListIs(nodes, n, layer, list);
    hide SetList, Neighbours, HasLayer;
    var next := SetList(nodes, n, layer, list);
    forall k, l | HasLayer(next, k, l)
      ensures ListOk(next, m, k, l, Neighbours(next, k, l))
    {
      assert HasLayer(nodes, k, l);
      assert ListOk(nodes, m, k, l, Neighbours(nodes, k, l));
    }
  }

  // ---------------------------------------------------------------------- back-links

  /** A neighbour's list once it links back, pruned by the same choice when it is too long. */
  function Backlinked(nodes: Nodes, nb: nat, node: nat, layer: nat, m: nat, close: Similarity): seq<nat>
    requires nb < |nodes| && node < |nodes| && InRange(nodes, Neighbours(nodes, nb, layer))
  {
    var list := Neighbours(nodes, nb, layer);
    var added := if node in list then list else list + [node];
    if |added| > Degree(m, layer) then Chosen(nodes, nb, added, Degree(m, layer), close) else added
  }

  lemma ListInRange(nodes: Nodes, m: nat, n: nat, layer: nat)
    requires GraphOk(nodes, m)
    ensures InRange(nodes, Neighbours(nodes, n, layer))
  {
    if HasLayer(nodes, n, layer) {
      assert ListOk(nodes, m, n, layer, Neighbours(nodes, n, layer));
      assert forall i :: 0 <= i < |Neighbours(nodes, n, layer)| ==> Neighbours(nodes, n, layer)[i] in Neighbours(nodes, n, layer);
    }
  }

  lemma BacklinkedOk(nodes: Nodes, m: nat, nb: nat, node: nat, layer: nat, close: Similarity)
    requires GraphOk(nodes, m) && HasLayer(nodes, nb, layer) && HasLayer(nodes, node, layer) && nb != node
    ensures InRange(nodes, Neighbours(nodes, nb, layer))
    ensures ListOk(nodes, m, nb, layer, Backlinked(nodes, nb, node, layer, m, close))
    ensures forall x :: x in Backlinked(nodes, nb, node, layer, m, close) ==> x in Neighbours(nodes, nb, layer) || x == node
  {
    hide Chosen;
    ListInRange(nodes, m, nb, layer);
    var list := Neighbours(nodes, nb, layer);
    assert ListOk(nodes, m, nb, layer, list);
    var added := if node in list then list else list + [node];
    assert Distinct(added);
    ChosenIs(nodes, nb, added, Degree(m, layer), close);
  }

  /** Lists differ only where the layer's lists have been rewritten; choices depend on vectors alone. */
  lemma {:induction false} SameChoice(a: Nodes, b: Nodes, n: nat, cands: seq<nat>, m: nat, close: Similarity)
    requires SameShape(a, b) && n < |a| && InRange(a, cands)
    ensures Chosen(a, n, cands, m, close) == Chosen(b, n, cands, m, close)
  {
    assert ScoredBy(a, n, cands, close) == ScoredBy(b, n, cands, close);
    hide ScoredBy, Sort;
    SameBetween(a, b, close);
    SameSelect(ScoreAndSort(a, n, cands, close), m, Between(a, close), Between(b, close));
  }

  lemma SameBetween(a: Nodes, b: Nodes, close: Similarity)
    requires SameShape(a, b)
    ensures forall x, y :: Between(a, close)(x, y) == Between(b, close)(x, y)
  {
  }

  lemma {:induction false} SameDiverse(scored: seq<Scored>, m: nat, f: (nat, nat) -> real, g: (nat, nat) -> real)
    requires forall x, y :: f(x, y) == g(x, y)
    ensures Diverse(scored, m, f) == Diverse(scored, m, g)
  {
    if scored != [] {
      SameDiverse(scored[..|scored| - 1], m, f, g);
    }
  }

  lemma SameSelect(scored: seq<Scored>, m: nat, f: (nat, nat) -> real, g: (nat, nat) -> real)
    requires forall x, y :: f(x, y) == g(x, y)
    ensures Select(scored, m, f) == Select(scored, m, g)
  {
    SameDiverse(scored, m, f, g);
  }

  // ------------------------------------------------------------------------ the index

  /** A new node at the end, linked to nothing. */
  function WithNode(nodes: Nodes, node: Node): Nodes { nodes + [node] }

  ghost predicate NoLists(node: Node) { forall l :: 0 <= l < |node.links| ==> node.links[l] == [] }

  lemma WithNodeOk(nodes: Nodes, m: nat, node: Node)
    requires GraphOk(nodes, m) && NoLists(node)
    ensures GraphOk(WithNode(nodes, node), m) && forall l: nat :: Unlinked(WithNode(nodes, node), |nodes|, l)
    ensures forall k: nat, l: nat :: k < |nodes| ==> (HasLayer(WithNode(nodes, node), k, l) <==> HasLayer(nodes, k, l))
  {
    var next := WithNode(nodes, node);
    forall k: nat, l: nat | HasLayer(next, k, l)
      ensures ListOk(next, m, k, l, Neighbours(next, k, l))
    {
      if k < |nodes| {
        assert ListOk(nodes, m, k, l, Neighbours(nodes, k, l));
        assert forall x :: HasLayer(nodes, x, l) ==> HasLayer(next, x, l);
      } else {
        assert Neighbours(next, k, l) == [];
      }
    }
    forall l: nat, k: nat
      ensures |nodes| !in Neighbours(next, k, l)
    {
      if HasLayer(next, k, l) && k < |nodes| {
        assert ListOk(nodes, m, k, l, Neighbours(nodes, k, l));
      }
    }
  }

  /** The node an id named before is superseded. */
  function Supersede(nodes: Nodes, ordinals: map<nat, nat>, id: nat): Nodes {
    if id in ordinals && ordinals[id] < |nodes| then nodes[ordinals[id] := nodes[ordinals[id]].(superseded := true)] else nodes
  }

  lemma SupersedeOk(nodes: Nodes, m: nat, ordinals: map<nat, nat>, id: nat)
    requires GraphOk(nodes, m)
    ensures GraphOk(Supersede(nodes, ordinals, id), m) && |Supersede(nodes, ordinals, id)| == |nodes|
    ensures forall n :: 0 <= n < |nodes| ==> Supersede(nodes, ordinals, id)[n].links == nodes[n].links
  {
    var next := Supersede(nodes, ordinals, id);
    assert forall k, l :: HasLayer(next, k, l) <==> HasLayer(nodes, k, l);
    assert forall k, l :: Neighbours(next, k, l) == Neighbours(nodes, k, l);
    hide HasLayer, Neighbours;
    forall k, l | HasLayer(next, k, l)
      ensures ListOk(next, m, k, l, Neighbours(next, k, l))
    {
      assert ListOk(nodes, m, k, l, Neighbours(nodes, k, l));
    }
  }

  /** After insertion the new node is the live one of its id, and every other id keeps its own. */
  lemma IdsNext(nodes: Nodes, ordinals: map<nat, nat>, node: Node)
    requires IdsOk(nodes, ordinals) && !node.superseded
    ensures IdsOk(WithNode(Supersede(nodes, ordinals, node.id), node), ordinals[node.id := |nodes|])
  {
    var next := WithNode(Supersede(nodes, ordinals, node.id), node);
    var after := ordinals[node.id := |nodes|];
    forall n | 0 <= n < |next|
      ensures next[n].id in after && (!next[n].superseded <==> after[next[n].id] == n)
    {
    }
  }

  lemma IdsShape(a: Nodes, b: Nodes, ordinals: map<nat, nat>)
    requires IdsOk(a, ordinals) && SameShape(a, b)
    ensures IdsOk(b, ordinals)
  {
  }

  /** Anything found from another node of the layer is not the unlinked new node, and reaches the layer. */
  lemma FoundIsOld(nodes: Nodes, m: nat, layer: nat, cur: nat, ef: nat, score: Scores, visited: set<nat>, out: seq<nat>, added: nat)
    requires GraphOk(nodes, m) && HasLayer(nodes, cur, layer) && cur != added && Unlinked(nodes, added, layer)
    requires Found(nodes, layer, cur, ef, score, visited, out)
    ensures out != [] && Distinct(out) && InRange(nodes, out) && forall x :: x in out ==> x != added && HasLayer(nodes, x, layer)
  {
    hide GraphOk, Unlinked, HasLayer;
    forall x | x in out
      ensures x < |nodes| && x != added && HasLayer(nodes, x, layer)
    {
      assert Reaches(nodes, layer, cur, x);
      if x == added {
        UnlinkedUnreached(nodes, layer, cur, added);
      }
      var p :| Path(nodes, layer, p) && p[0] == cur && p[|p| - 1] == x;
      ReachedHasLayer(nodes, m, layer, p);
    }
    assert forall i :: 0 <= i < |out| ==> out[i] in out;
  }

  /** What linking one node into one layer does: its own list is chosen from the candidates, each chosen
      neighbour links back, and every other list is as it was. */
  ghost predicate Connected(before: Nodes, after: Nodes, node: nat, layer: nat, cands: seq<nat>, m: nat, close: Similarity)
    requires GraphOk(before, m) && node < |before| && InRange(before, cands)
  {
    var chosen := Chosen(before, node, cands, Degree(m, layer), close);
    SameShape(before, after) && SameElsewhere(before, after, layer) && Neighbours(after, node, layer) == chosen &&
    (forall k :: k != node && k !in chosen ==> Neighbours(after, k, layer) == Neighbours(before, k, layer)) &&
    (forall k :: k in chosen && k != node && k < |before| && InRange(before, Neighbours(before, k, layer)) ==>
      Neighbours(after, k, layer) == Backlinked(before, k, node, layer, m, close))
  }

  /** Part of the way: the first `i` chosen neighbours link back. */
  ghost predicate Connecting(before: Nodes, now: Nodes, node: nat, layer: nat, chosen: seq<nat>, i: nat, m: nat, close: Similarity)
    requires GraphOk(before, m) && node < |before| && i <= |chosen|
  {
    SameShape(before, now) && SameElsewhere(before, now, layer) && Neighbours(now, node, layer) == chosen &&
    (forall k :: k != node && k !in chosen[..i] ==> Neighbours(now, k, layer) == Neighbours(before, k, layer)) &&
    (forall k :: k in chosen[..i] && k != node && k < |before| && InRange(before, Neighbours(before, k, layer)) ==>
      Neighbours(now, k, layer) == Backlinked(before, k, node, layer, m, close))
  }

  lemma SameBacklink(before: Nodes, now: Nodes, nb: nat, node: nat, layer: nat, m: nat, close: Similarity)
    requires SameShape(before, now) && nb < |before| && node < |before|
    requires Neighbours(now, nb, layer) == Neighbours(before, nb, layer) && InRange(before, Neighbours(before, nb, layer))
    ensures Backlinked(now, nb, node, layer, m, close) == Backlinked(before, nb, node, layer, m, close)
  {
    hide Chosen;
    var list := Neighbours(before, nb, layer);
    var added := if node in list then list else list + [node];
    SameChoice(before, now, nb, added, Degree(m, layer), close);
  }

  lemma ConnectingNext(before: Nodes, now: Nodes, node: nat, layer: nat, chosen: seq<nat>, i: nat, m: nat, close: Similarity)
    requires GraphOk(before, m) && GraphOk(now, m) && node < |before| && i < |chosen| && Distinct(chosen)
    requires Connecting(before, now, node, layer, chosen, i, m, close)
    requires chosen[i] != node && HasLayer(now, chosen[i], layer) && HasLayer(now, node, layer)
    ensures InRange(now, Neighbours(now, chosen[i], layer))
    ensures var next := SetList(now, chosen[i], layer, Backlinked(now, chosen[i], node, layer, m, close));
      GraphOk(next, m) && Connecting(before, next, node, layer, chosen, i + 1, m, close)
  {
    hide Backlinked, GraphOk, SetList;
    var nb := chosen[i];
    BacklinkedOk(now, m, nb, node, layer, close);
    ListInRange(before, m, nb, layer);
    var list := Backlinked(now, nb, node, layer, m, close);
    SetListOk(now, m, nb, layer, list);
    SetListIs(now, nb, layer, list);
    assert chosen[..i + 1] == chosen[..i] + [nb];
    assert nb !in chosen[..i];
    SameBacklink(before, now, nb, node, layer, m, close);
    hide Neighbours, HasLayer, InRange;
  }

  function ScoreBy(nodes: Nodes, walk: Similarity, query: Vector): Scores {
    (n: nat) => if n < |nodes| then walk(nodes[n].vector, query) else 0.0
  }

  // --------------------------------------------------------------- the descent to a layer

  /** Greedy hops from layer `top` down to the layer above `bottom`, each to the best node a search of the layer finds. */
  ghost predicate Descended(nodes: Nodes, score: Scores, entry: nat, top: nat, bottom: nat, cur: nat)
    decreases top
  {
    if top <= bottom then cur == entry
    else exists visited, found ::
      Found(nodes, top, entry, 1, score, visited, found) && Descended(nodes, score, found[0], top - 1, bottom, cur)
  }

  lemma DescendHop(nodes: Nodes, score: Scores, entry: nat, top: nat, bottom: nat, visited: set<nat>, found: seq<nat>)
    requires top > bottom && Found(nodes, top, entry, 1, score, visited, found)
    ensures forall c :: Descended(nodes, score, found[0], top - 1, bottom, c) ==> Descended(nodes, score, entry, top, bottom, c)
  {
    hide Found;
  }

  // ------------------------------------------------- what linking a node does to every list

  /** A list that gains the new node at its end, or, when that makes it too long, is chosen again from its old members and
      the new node. */
  ghost predicate LinksBack(before: Nodes, after: Nodes, k: nat, node: nat, layer: nat, m: nat, close: Similarity)
    requires k < |before| && node < |before| && InRange(before, Neighbours(before, k, layer))
  {
    var all := Neighbours(before, k, layer) + [node];
    if |all| <= Degree(m, layer) then Neighbours(after, k, layer) == all
    else Neighbours(after, k, layer) == Chosen(before, k, all, Degree(m, layer), close) &&
         |Neighbours(after, k, layer)| == Degree(m, layer) && forall x :: x in Neighbours(after, k, layer) ==> x in all
  }

  /** In one layer: the new node's list was chosen from these candidates, everything on it links back, and every other list
      is as it was. */
  ghost predicate LayerLinked(before: Nodes, after: Nodes, node: nat, layer: nat, cands: seq<nat>, m: nat, close: Similarity) {
    node < |before| && InRange(before, cands) && Neighbours(after, node, layer) == Chosen(before, node, cands, Degree(m, layer), close) &&
    (forall k :: k != node && k !in Neighbours(after, node, layer) ==> Neighbours(after, k, layer) == Neighbours(before, k, layer)) &&
    forall k :: k in Neighbours(after, node, layer) ==>
      k < |before| && k != node && InRange(before, Neighbours(before, k, layer)) && LinksBack(before, after, k, node, layer, m, close)
  }

  /** The candidates are what a search of the layer with the construction beam finds from `cur`. */
  ghost predicate LinkedAt(before: Nodes, after: Nodes, node: nat, layer: nat, cur: nat, cands: seq<nat>, ef: nat, score: Scores,
                           m: nat, close: Similarity)
  {
    LayerLinked(before, after, node, layer, cands, m, close) && exists visited :: Found(before, layer, cur, ef, score, visited, cands)
  }

  /** Where the search of the next layer down starts: at the best node found in the layer above. */
  function From(start: nat, found: seq<seq<nat>>, i: nat): nat
    requires i <= |found|
  {
    if i == 0 || found[i - 1] == [] then start else found[i - 1][0]
  }

  /** The layers from `top` down, as far as candidates have been found, are linked; the lists of all others are as they were. */
  ghost predicate Woven(before: Nodes, after: Nodes, node: nat, start: nat, top: nat, found: seq<seq<nat>>, ef: nat, score: Scores,
                        m: nat, close: Similarity)
  {
    |found| <= top + 1 &&
    (forall i :: 0 <= i < |found| ==>
      LinkedAt(before, after, node, top - i, From(start, found, i), found[i], ef, score, m, close)) &&
    forall k, l: nat :: l > top || l + |found| <= top ==> Neighbours(after, k, l) == Neighbours(before, k, l)
  }

  lemma NothingWoven(nodes: Nodes, node: nat, start: nat, top: nat, ef: nat, score: Scores, m: nat, close: Similarity)
    ensures Woven(nodes, nodes, node, start, top, [], ef, score, m, close)
  {
  }

  ghost predicate SameScoring(f: Scores, g: Scores) { forall x: nat :: f(x) == g(x) }

  /** A search of a layer looks at vectors and at the lists of the layer alone. */
  lemma SameFound(a: Nodes, b: Nodes, layer: nat, cur: nat, ef: nat, f: Scores, g: Scores, visited: set<nat>, out: seq<nat>)
    requires |a| == |b| && (forall k :: Neighbours(a, k, layer) == Neighbours(b, k, layer)) && SameScoring(f, g)
    requires Found(a, layer, cur, ef, f, visited, out)
    ensures Found(b, layer, cur, ef, g, visited, out)
  {
    hide Neighbours, Reaches;
    forall x, y
      ensures Step(a, layer, x, y) <==> Step(b, layer, x, y)
    {
    }
    forall y
      ensures Reaches(a, layer, cur, y) <==> Reaches(b, layer, cur, y)
    {
      SameReach(a, b, layer, cur, y);
    }
    hide Step;
  }

  lemma SameReach(a: Nodes, b: Nodes, layer: nat, from: nat, to: nat)
    requires |a| == |b| && forall k :: Neighbours(a, k, layer) == Neighbours(b, k, layer)
    ensures Reaches(a, layer, from, to) <==> Reaches(b, layer, from, to)
  {
    hide Neighbours;
    assert forall p :: Path(a, layer, p) <==> Path(b, layer, p);
  }

  lemma SameScores(a: Nodes, b: Nodes, walk: Similarity, query: Vector)
    requires SameShape(a, b)
    ensures SameScoring(ScoreBy(a, walk, query), ScoreBy(b, walk, query))
  {
  }

  /** Linking one more layer, seen from the graph before the first. */
  lemma WovenNext(before: Nodes, now: Nodes, after: Nodes, node: nat, start: nat, top: nat, found: seq<seq<nat>>, cands: seq<nat>,
                  visited: set<nat>, ef: nat, walk: Similarity, query: Vector, m: nat, close: Similarity)
    requires |found| <= top && GraphOk(now, m) && GraphOk(before, m) && node < |now| && SameShape(before, now)
    requires Woven(before, now, node, start, top, found, ef, ScoreBy(before, walk, query), m, close)
    requires var layer := top - |found|; var cur := From(start, found, |found|);
      Found(now, layer, cur, ef, ScoreBy(now, walk, query), visited, cands) && InRange(now, cands) && Distinct(cands) &&
      (forall x :: x in cands ==> x != node && HasLayer(now, x, layer)) && Unlinked(now, node, layer) &&
      Connected(now, after, node, layer, cands, m, close)
    ensures Woven(before, after, node, start, top, found + [cands], ef, ScoreBy(before, walk, query), m, close)
  {
    hide GraphOk, Found, Connected, ScoreBy, LayerLinked, Neighbours, Unlinked, HasLayer, SameShape;
    var layer, score := top - |found|, ScoreBy(before, walk, query);
    ConnectedElsewhere(now, after, node, layer, cands, m, close);
    SameLists(before, now, node, start, top, found, layer, ef, score, m, close);
    LayerNow(before, now, after, node, layer, cands, m, close);
    SameScores(before, now, walk, query);
    SameShapeSizes(before, now);
    SameFound(now, before, layer, From(start, found, |found|), ef, ScoreBy(now, walk, query), score, visited, cands);
    var found' := found + [cands];
    forall i | 0 <= i < |found'|
      ensures LinkedAt(before, after, node, top - i, From(start, found', i), found'[i], ef, score, m, close)
    {
      if i < |found| {
        assert LinkedAt(before, now, node, top - i, From(start, found, i), found[i], ef, score, m, close);
        LayerStays(before, now, after, node, top - i, found[i], m, close);
        assert From(start, found', i) == From(start, found, i);
      }
    }
  }

  lemma SameShapeSizes(a: Nodes, b: Nodes)
    requires SameShape(a, b)
    ensures |a| == |b|
  {
  }

  lemma SameLists(before: Nodes, now: Nodes, node: nat, start: nat, top: nat, found: seq<seq<nat>>, layer: nat, ef: nat,
                  score: Scores, m: nat, close: Similarity)
    requires layer + |found| == top && Woven(before, now, node, start, top, found, ef, score, m, close)
    ensures forall k :: Neighbours(now, k, layer) == Neighbours(before, k, layer)
  {
    hide LinkedAt, Neighbours;
  }

  lemma ConnectedElsewhere(before: Nodes, after: Nodes, node: nat, layer: nat, cands: seq<nat>, m: nat, close: Similarity)
    requires GraphOk(before, m) && node < |before| && InRange(before, cands) && Connected(before, after, node, layer, cands, m, close)
    ensures SameElsewhere(before, after, layer) && SameShape(before, after)
  {
    hide GraphOk, SameElsewhere, SameShape, Chosen, Backlinked;
  }

  lemma LayerStays(before: Nodes, now: Nodes, after: Nodes, node: nat, layer: nat, cands: seq<nat>, m: nat, close: Similarity)
    requires LayerLinked(before, now, node, layer, cands, m, close) && forall k :: Neighbours(now, k, layer) == Neighbours(after, k, layer)
    ensures LayerLinked(before, after, node, layer, cands, m, close)
  {
    hide Chosen, Neighbours;
  }

  /** One layer is linked as promised, seen from a graph with the same lists in the layer. */
  lemma LayerNow(before: Nodes, now: Nodes, after: Nodes, node: nat, layer: nat, cands: seq<nat>, m: nat, close: Similarity)
    requires GraphOk(now, m) && GraphOk(before, m) && node < |now| && SameShape(before, now) && InRange(now, cands) && Distinct(cands)
    requires (forall x :: x in cands ==> x != node && HasLayer(now, x, layer)) && Unlinked(now, node, layer)
    requires forall k :: Neighbours(now, k, layer) == Neighbours(before, k, layer)
    requires Connected(now, after, node, layer, cands, m, close)
    ensures LayerLinked(before, after, node, layer, cands, m, close)
  {
    hide GraphOk, Chosen, Backlinked, Neighbours, HasLayer, Unlinked;
    SameChoice(before, now, node, cands, Degree(m, layer), close);
    ChosenIs(now, node, cands, Degree(m, layer), close);
    forall k | k in Neighbours(after, node, layer)
      ensures k < |before| && k != node && InRange(before, Neighbours(before, k, layer))
      ensures LinksBack(before, after, k, node, layer, m, close)
    {
      InLayer(now, k, layer);
      ListInRange(now, m, k, layer);
      LinksBackNow(before, now, after, k, node, layer, m, close);
    }
  }

  lemma InLayer(nodes: Nodes, k: nat, layer: nat)
    requires HasLayer(nodes, k, layer)
    ensures k < |nodes|
  {
  }

  lemma LinksBackNow(before: Nodes, now: Nodes, after: Nodes, k: nat, node: nat, layer: nat, m: nat, close: Similarity)
    requires GraphOk(now, m) && SameShape(before, now) && node < |now| && k < |now| && k != node && HasLayer(now, k, layer)
    requires Neighbours(now, k, layer) == Neighbours(before, k, layer) && InRange(now, Neighbours(now, k, layer))
    requires Unlinked(now, node, layer) && Neighbours(after, k, layer) == Backlinked(now, k, node, layer, m, close)
    ensures InRange(before, Neighbours(before, k, layer)) && LinksBack(before, after, k, node, layer, m, close)
  {
    hide Chosen, HasLayer;
    var list := Neighbours(now, k, layer);
    var all := list + [node];
    assert node !in list;
    ListsDistinct(now, m, k, layer);
    hide Neighbours, GraphOk;
    assert Distinct(all) && InRange(now, all);
    ChosenIs(now, k, all, Degree(m, layer), close);
    SameChoice(before, now, k, all, Degree(m, layer), close);
  }

  lemma ListsDistinct(nodes: Nodes, m: nat, k: nat, layer: nat)
    requires GraphOk(nodes, m)
    ensures Distinct(Neighbours(nodes, k, layer))
  {
    if HasLayer(nodes, k, layer) {
      assert ListOk(nodes, m, k, layer, Neighbours(nodes, k, layer));
    }
  }

  // ------------------------------------------------------------ while nothing is pruned

  /** Every node is reachable from every other in the base layer. */
  ghost predicate Whole(nodes: Nodes) { forall a: nat, b: nat :: a < |nodes| && b < |nodes| ==> Reaches(nodes, 0, a, b) }

  /** Base lists may only have grown. */
  ghost predicate Grown(before: Nodes, after: Nodes) {
    |before| <= |after| && forall k: nat, x: nat :: Step(before, 0, k, x) ==> Step(after, 0, k, x)
  }

  lemma GrownReaches(before: Nodes, after: Nodes, a: nat, b: nat)
    requires Grown(before, after) && Reaches(before, 0, a, b)
    ensures Reaches(after, 0, a, b)
  {
    hide Step;
    var p :| Path(before, 0, p) && p[0] == a && p[|p| - 1] == b;
    assert Path(after, 0, p);
  }

  lemma {:induction false} ReachesFurther(nodes: Nodes, layer: nat, from: nat, p: seq<nat>)
    requires Path(nodes, layer, p) && Reaches(nodes, layer, from, p[0])
    ensures Reaches(nodes, layer, from, p[|p| - 1])
    decreases |p|
  {
    if |p| > 1 {
      var q := p[..|p| - 1];
      assert Path(nodes, layer, q);
      ReachesFurther(nodes, layer, from, q);
      assert Step(nodes, layer, p[|p| - 2], p[|p| - 1]);
      ReachesNext(nodes, layer, from, p[|p| - 2], p[|p| - 1]);
    }
  }

  lemma ReachesOn(nodes: Nodes, layer: nat, a: nat, b: nat, c: nat)
    requires Reaches(nodes, layer, a, b) && Reaches(nodes, layer, b, c)
    ensures Reaches(nodes, layer, a, c)
  {
    var p :| Path(nodes, layer, p) && p[0] == b && p[|p| - 1] == c;
    ReachesFurther(nodes, layer, a, p);
  }

  /** One node more, linked both ways to one of the others. */
  lemma OneMoreIsWhole(before: Nodes, after: Nodes, k: nat)
    requires Whole(before) && Grown(before, after) && |after| == |before| + 1 && k < |before|
    requires Step(after, 0, |before|, k) && Step(after, 0, k, |before|)
    ensures Whole(after)
  {
    hide Step, Grown;
    var n := |before|;
    ReachesSelf(after, 0, n);
    ReachesSelf(after, 0, k);
    ReachesNext(after, 0, n, n, k);
    ReachesNext(after, 0, k, k, n);
    forall a: nat, b: nat | a < |after| && b < |after|
      ensures Reaches(after, 0, a, b)
    {
      ToOld(before, after, a, k);
      FromOld(before, after, k, b);
      ReachesOn(after, 0, a, k, b);
    }
  }

  lemma ToOld(before: Nodes, after: Nodes, a: nat, k: nat)
    requires Whole(before) && Grown(before, after) && |after| == |before| + 1 && k < |before| && a < |after|
    requires Reaches(after, 0, |before|, k)
    ensures Reaches(after, 0, a, k)
  {
    hide Grown, Reaches;
    if a < |before| {
      GrownReaches(before, after, a, k);
    }
  }

  lemma FromOld(before: Nodes, after: Nodes, k: nat, b: nat)
    requires Whole(before) && Grown(before, after) && |after| == |before| + 1 && k < |before| && b < |after|
    requires Reaches(after, 0, k, |before|)
    ensures Reaches(after, 0, k, b)
  {
    hide Grown, Reaches;
    if b < |before| {
      GrownReaches(before, after, k, b);
    }
  }

  /** No base list that the new node is linked to was full. */
  ghost predicate Unpruned(before: Nodes, after: Nodes, node: nat, m: nat) {
    forall k :: k in Neighbours(after, node, 0) ==> |Neighbours(before, k, 0)| < Degree(m, 0)
  }

  /** A linked graph stays whole while no list is pruned. */
  lemma StaysWhole(before: Nodes, staged: Nodes, after: Nodes, cands: seq<nat>, m: nat, close: Similarity)
    requires GraphOk(before, m) && Whole(before) && |staged| == |before| + 1 == |after| && Unpruned(before, after, |before|, m)
    requires (forall k: nat :: k < |before| ==> Neighbours(staged, k, 0) == Neighbours(before, k, 0)) && Neighbours(staged, |before|, 0) == []
    requires LayerLinked(staged, after, |before|, 0, cands, m, close) && Neighbours(after, |before|, 0) != []
    ensures Whole(after)
  {
    hide GraphOk, Chosen, Whole;
    var n := |before|;
    var k := Neighbours(after, n, 0)[0];
    assert k in Neighbours(after, n, 0);
    assert LinksBack(staged, after, k, n, 0, m, close);
    assert Step(after, 0, n, k) && Step(after, 0, k, n);
    forall a: nat, x: nat | Step(before, 0, a, x)
      ensures Step(after, 0, a, x)
    {
      if a in Neighbours(after, n, 0) {
        assert LinksBack(staged, after, a, n, 0, m, close);
      }
    }
    OneMoreIsWhole(before, after, k);
  }

  /** A list names other nodes, each once. */
  lemma ListIsShort(nodes: Nodes, m: nat, n: nat, layer: nat)
    requires GraphOk(nodes, m)
    ensures |Neighbours(nodes, n, layer)| < |nodes| || Neighbours(nodes, n, layer) == []
  {
    if HasLayer(nodes, n, layer) {
      var list := Neighbours(nodes, n, layer);
      assert ListOk(nodes, m, n, layer, list);
      var others := FirstNodes(|nodes|) - {n};
      assert |others| == |nodes| - 1;
      DistinctSize(list, others);
    }
  }

  /** While the graph has no more nodes than a base list has places, no list can be full. */
  lemma FewUnpruned(before: Nodes, after: Nodes, node: nat, m: nat)
    requires GraphOk(before, m) && |before| <= Degree(m, 0) && 0 < |before|
    ensures Unpruned(before, after, node, m)
  {
    hide GraphOk, Neighbours;
    forall k | k in Neighbours(after, node, 0)
      ensures |Neighbours(before, k, 0)| < Degree(m, 0)
    {
      ListIsShort(before, m, k, 0);
    }
  }
}
