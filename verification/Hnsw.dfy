/** Building the graph by insertion, and searching it. */
module Hnsw {
  import opened Documents
  import opened Sorting
  import opened HnswGraph
  import opened HnswSearch
  import opened HnswLinks
  import opened HitLists

  class HnswIndex {
    const m: nat
    const efConstruction: nat
    const efSearch: nat
    const walk: Similarity
    const close: Similarity
    const unit: Vector -> Vector
    var nodes: Nodes
    var entry: nat
    var maxLayer: int
    var dimension: nat
    var ordinals: map<nat, nat>
    var deleted: set<nat>

    ghost predicate Valid()
      reads this
    {
      GraphOk(nodes, m) && EntryOk(nodes, entry, maxLayer) && IdsOk(nodes, ordinals) &&
      (|nodes| <= 2 * m + 1 ==> Whole(nodes))
    }

    constructor (m: nat, efConstruction: nat, efSearch: nat, walk: Similarity, close: Similarity, unit: Vector -> Vector)
      ensures Valid() && nodes == [] && deleted == {} && maxLayer == -1 && dimension == 0 && ordinals == map[] && this.m == m
      ensures this.efConstruction == efConstruction && this.efSearch == efSearch
      ensures this.walk == walk && this.close == close && this.unit == unit
    {
      this.m, this.efConstruction, this.efSearch := m, efConstruction, efSearch;
      this.walk, this.close, this.unit := walk, close, unit;
      nodes, entry, maxLayer, dimension, ordinals, deleted := [], 0, -1, 0, map[], {};
    }

    /** `connect`: no index in it is out of range. */
    method Connect(node: nat, layer: nat, cands: seq<nat>)
      requires GraphOk(nodes, m) && HasLayer(nodes, node, layer) && Distinct(cands) && InRange(nodes, cands)
      requires forall x :: x in cands ==> x != node && HasLayer(nodes, x, layer)
      modifies this`nodes
      ensures GraphOk(nodes, m) && Connected(old(nodes), nodes, node, layer, cands, m, close)
    {
      hide GraphOk, Chosen, Backlinked, SetList, Neighbours;
      ghost var before := nodes;
      var chosen := Choose(nodes, node, cands, Degree(m, layer), close);
      ChosenIs(nodes, node, cands, Degree(m, layer), close);
      SetListOk(nodes, m, node, layer, chosen);
      SetListIs(nodes, node, layer, chosen);
      nodes := SetList(nodes, node, layer, chosen);
      for i := 0 to |chosen|
        invariant GraphOk(nodes, m) && Connecting(before, nodes, node, layer, chosen, i, m, close)
      {
        hide Connecting;
        var nb := chosen[i];
        assert nb in cands;
        ConnectedLayers(before, nodes, node, layer, chosen, i, m, close);
        ConnectingNext(before, nodes, node, layer, chosen, i, m, close);
        var list := nodes[nb].links[layer];
        ListIs(nodes, nb, layer);
        if node !in list {
          list := list + [node];
        }
        BackIs(nodes, nb, node, layer, m, close);
        if |list| > Degree(m, layer) {
          list := Choose(nodes, nb, list, Degree(m, layer), close);
        }
        nodes := SetList(nodes, nb, layer, list);
      }
      assert chosen[..|chosen|] == chosen;
    }

    lemma ValidParts()
      requires Valid()
      ensures GraphOk(nodes, m) && EntryOk(nodes, entry, maxLayer) && IdsOk(nodes, ordinals) && (|nodes| <= 2 * m + 1 ==> Whole(nodes))
    {
    }

    lemma ValidFrom()
      requires GraphOk(nodes, m) && EntryOk(nodes, entry, maxLayer) && IdsOk(nodes, ordinals) && (|nodes| <= 2 * m + 1 ==> Whole(nodes))
      ensures Valid()
    {
    }

    /** `add`, with the level drawn for the node as a parameter. The new node descends from the entry, and in every layer it
        shares with the graph, from the top down, it is linked to a choice of what a search finds; every node it is linked
        to links back. */
    method Add(id: nat, vec: Vector, level: nat) returns (ghost start: nat, ghost found: seq<seq<nat>>)
      requires Valid()
      modifies this
      ensures Valid()
      ensures vec == [] || (old(dimension) != 0 && |vec| != old(dimension)) ==>
        nodes == old(nodes) && ordinals == old(ordinals) && deleted == old(deleted) && entry == old(entry) &&
        maxLayer == old(maxLayer) && dimension == old(dimension)
      ensures vec != [] && (old(dimension) == 0 || |vec| == old(dimension)) ==>
        Inserted(old(nodes), old(ordinals), nodes, id, unit(vec), level) && deleted == old(deleted) - {id} &&
        ordinals == old(ordinals)[id := |old(nodes)|] && dimension == |vec| &&
        entry == (if level > old(maxLayer) then |old(nodes)| else old(entry)) &&
        maxLayer == if level > old(maxLayer) then level else old(maxLayer)
      ensures vec != [] && (old(dimension) == 0 || |vec| == old(dimension)) ==>
        LinkedIn(Staged(old(nodes), old(ordinals), id, unit(vec), level), nodes, |old(nodes)|, old(entry), old(maxLayer), level,
                 start, found, efConstruction, ScoreBy(Staged(old(nodes), old(ordinals), id, unit(vec), level), walk, unit(vec)),
                 m, close)
      ensures vec != [] && (old(dimension) == 0 || |vec| == old(dimension)) && m > 0 ==>
        forall l: nat :: l <= level && l <= old(maxLayer) ==> Neighbours(nodes, |old(nodes)|, l) != []
      ensures vec != [] && (old(dimension) == 0 || |vec| == old(dimension)) && m > 0 && old(nodes) != [] ==>
        Whole(old(nodes)) && Unpruned(old(nodes), nodes, |old(nodes)|, m) ==> Whole(nodes)
    {
      hide *;
      start, found := 0, [];
      if dimension == 0 {
        dimension := |vec|;
      }
      if |vec| != dimension || dimension == 0 {
        return;
      }
      deleted := deleted - {id};
      ValidAlone();
      start, found := Insert(id, unit(vec), level);
    }

    /** `Valid` speaks of the graph and its index alone. */
    twostate lemma ValidAlone()
      requires old(Valid()) && nodes == old(nodes) && entry == old(entry) && maxLayer == old(maxLayer) && ordinals == old(ordinals)
      ensures Valid()
    {
    }

    /** The node is added at the end, and linked unless it is the first. */
    method Insert(id: nat, vector: Vector, level: nat) returns (ghost start: nat, ghost found: seq<seq<nat>>)
      requires Valid()
      modifies this`nodes, this`entry, this`maxLayer, this`ordinals
      ensures Valid()
      ensures Inserted(old(nodes), old(ordinals), nodes, id, vector, level) && ordinals == old(ordinals)[id := |old(nodes)|]
      ensures entry == (if level > old(maxLayer) then |old(nodes)| else old(entry))
      ensures maxLayer == if level > old(maxLayer) then level else old(maxLayer)
      ensures LinkedIn(Staged(old(nodes), old(ordinals), id, vector, level), nodes, |old(nodes)|, old(entry), old(maxLayer), level,
                       start, found, efConstruction, ScoreBy(Staged(old(nodes), old(ordinals), id, vector, level), walk, vector),
                       m, close)
      ensures m > 0 ==> forall l: nat :: l <= level && l <= old(maxLayer) ==> Neighbours(nodes, |old(nodes)|, l) != []
      ensures m > 0 && old(nodes) != [] && Whole(old(nodes)) && Unpruned(old(nodes), nodes, |old(nodes)|, m) ==> Whole(nodes)
    {
      hide *;
      ValidParts();
      start, found := 0, [];
      ghost var before, index := nodes, ordinals;
      var ordinal := |nodes|;
      StagedOk(nodes, m, ordinals, id, vector, level, entry, maxLayer);
      HasEntry(nodes, entry, maxLayer);
      nodes := Staged(nodes, ordinals, id, vector, level);
      ordinals := ordinals[id := ordinal];
      ghost var staged := nodes;
      if maxLayer < 0 {
        FirstEntry(before, entry, maxLayer, nodes, ordinal, level);
        InsertedBy(before, index, nodes, id, vector, level);
        OneIsWhole(nodes);
        LinkedAlone(nodes, ordinal, entry, maxLayer, level, start, found, efConstruction, ScoreBy(nodes, walk, vector), m, close);
        maxLayer, entry := level, ordinal;
        ValidFrom();
        return;
      }
      start, found := LinkNode(vector, level, ordinal, before);
      IdsShape(staged, nodes, ordinals);
      NextEntry(before, entry, maxLayer, staged, nodes, ordinal, level);
      InsertedBy(before, index, nodes, id, vector, level);
      if level > maxLayer {
        maxLayer, entry := level, ordinal;
      }
      ValidFrom();
    }

    /** The descent from the entry, and the links of every shared layer. */
    method LinkNode(query: Vector, level: nat, ordinal: nat, ghost before: Nodes)
      returns (ghost start: nat, ghost found: seq<seq<nat>>)
      requires GraphOk(nodes, m) && GraphOk(before, m) && maxLayer >= 0 && HasLayer(nodes, entry, maxLayer) && entry != ordinal
      requires HasLayer(nodes, ordinal, level) && nodes[ordinal].vector == query && forall l: nat :: Unlinked(nodes, ordinal, l)
      requires before != [] && ordinal == |before| && |nodes| == |before| + 1 && NoLists(nodes[ordinal])
      requires forall n :: 0 <= n < |before| ==> nodes[n].links == before[n].links
      requires |before| <= 2 * m + 1 ==> Whole(before)
      modifies this`nodes
      ensures GraphOk(nodes, m) && SameShape(old(nodes), nodes)
      ensures m > 0 ==> forall l: nat :: l <= level && l <= maxLayer ==> Neighbours(nodes, ordinal, l) != []
      ensures LinkedIn(old(nodes), nodes, ordinal, entry, maxLayer, level, start, found, efConstruction,
                       ScoreBy(old(nodes), walk, query), m, close)
      ensures m > 0 && Whole(before) && Unpruned(before, nodes, ordinal, m) ==> Whole(nodes)
      ensures |nodes| <= 2 * m + 1 ==> Whole(nodes)
    {
      hide *;
      ghost var staged := nodes;
      var cur := Descend(query, level, ordinal);
      start := cur;
      found := LinkLayers(query, level, ordinal, cur);
      LinkedNow(staged, nodes, ordinal, entry, maxLayer, level, start, found, efConstruction, ScoreBy(staged, walk, query), m, close);
      ghost var top := if level < maxLayer then level else maxLayer;
      SameSize(staged, nodes);
      AddedWhole(before, staged, nodes, start, top, found, efConstruction, ScoreBy(staged, walk, query), m, close);
    }

    /** `search`: from the entry down to where the descent ends, then a beam over the base layer. The hits are the live nodes
        the beam found, the best k of them, one per id, each scored exactly against the id's live vector. A beam as wide as
        the graph misses no live node that is reachable in the base layer, and in a graph of no more nodes than a base
        list has places, and one more, none at all. */
    method Search(query: Vector, k: nat, efOverride: nat)
      returns (hits: seq<Hit>, ghost start: nat, ghost visited: set<nat>, ghost found: seq<nat>)
      requires Valid()
      ensures |hits| <= k && DistinctIds(hits) && SortedBy(hits, Better)
      ensures forall h :: h in hits ==> LiveHit(nodes, ordinals, deleted, unit(Fit(query, dimension)), close, h)
      ensures nodes == [] || dimension == 0 ==> hits == []
      ensures nodes != [] && dimension != 0 ==>
        var q := unit(Fit(query, dimension));
        SearchedFrom(nodes, entry, maxLayer, BeamWidth(k, efOverride), ScoreBy(nodes, walk, q), start, visited, found) &&
        Answers(nodes, deleted, q, close, found, k, hits)
      ensures nodes != [] && dimension != 0 && BeamWidth(k, efOverride) >= |nodes| ==>
        forall n :: Live(nodes, deleted, n) && Reaches(nodes, 0, start, n) ==>
          Ranked(hits, k, HitOf(nodes, n, unit(Fit(query, dimension)), close))
      ensures nodes != [] && dimension != 0 && BeamWidth(k, efOverride) >= |nodes| && |nodes| <= 2 * m + 1 ==>
        forall n :: Live(nodes, deleted, n) ==> Ranked(hits, k, HitOf(nodes, n, unit(Fit(query, dimension)), close))
      ensures |nodes| == 1 && dimension != 0 && Live(nodes, deleted, 0) && k > 0 ==>
        hits == [HitOf(nodes, 0, unit(Fit(query, dimension)), close)]
    {
      hide *;
      ValidParts();
      hits, start, visited, found := [], 0, {}, [];
      Nothing();
      if nodes == [] || dimension == 0 {
        return;
      }
      var q := unit(Fit(query, dimension));
      var cur := DescendToBase(q);
      start := cur;
      var ef := BeamWidth(k, efOverride);
      var list;
      list, visited := SearchLayer(nodes, 0, cur, ef, ScoreBy(nodes, walk, q));
      found := list;
      FoundFacts(nodes, 0, cur, ef, ScoreBy(nodes, walk, q), visited, list);
      hits := BestHits(q, list, k);
      SearchedNow(nodes, entry, maxLayer, ef, ScoreBy(nodes, walk, q), start, visited, found);
      AnswersWide(nodes, deleted, q, close, start, ef, ScoreBy(nodes, walk, q), visited, found, k, hits);
      OnlyHit(nodes, m, deleted, q, close, start, ef, ScoreBy(nodes, walk, q), visited, list, k, hits);
    }

    /** The greedy descent from the entry to the base layer. */
    method DescendToBase(q: Vector) returns (cur: nat)
      requires Valid() && nodes != []
      ensures cur < |nodes| && maxLayer >= 0 && Descended(nodes, ScoreBy(nodes, walk, q), entry, maxLayer, 0, cur)
    {
      hide GraphOk, Found, IdsOk, Neighbours, Reaches, Descended, Whole;
      cur := entry;
      var lc := maxLayer;
      HasEntry(nodes, entry, maxLayer);
      while lc > 0
        invariant 0 <= lc <= maxLayer && HasLayer(nodes, cur, lc)
        invariant forall c :: Descended(nodes, ScoreBy(nodes, walk, q), cur, lc, 0, c) ==>
          Descended(nodes, ScoreBy(nodes, walk, q), entry, maxLayer, 0, c)
      {
        var next, seen := SearchLayer(nodes, lc, cur, 1, ScoreBy(nodes, walk, q));
        FoundHas(nodes, m, lc, cur, 1, ScoreBy(nodes, walk, q), seen, next);
        DescendHop(nodes, ScoreBy(nodes, walk, q), cur, lc, 0, seen, next);
        cur := next[0];
        lc := lc - 1;
      }
      Arrived(nodes, ScoreBy(nodes, walk, q), cur);
    }

    /** The live nodes of a list, scored exactly, best first, at most k. */
    method BestHits(q: Vector, found: seq<nat>, k: nat) returns (hits: seq<Hit>)
      requires IdsOk(nodes, ordinals) && Distinct(found)
      ensures |hits| <= k && DistinctIds(hits) && SortedBy(hits, Better)
      ensures forall h :: h in hits ==> LiveHit(nodes, ordinals, deleted, q, close, h)
      ensures Answers(nodes, deleted, q, close, found, k, hits)
    {
      hide Hits, IdsOk, Ranked, Answers;
      var all: seq<Hit> := [];
      NoHits(nodes, deleted, found, q, close);
      for i := 0 to |found|
        invariant all == Hits(nodes, deleted, found[..i], q, close)
      {
        HitsNext(nodes, deleted, found, i, q, close);
        if found[i] < |nodes| && nodes[found[i]].id !in deleted && !nodes[found[i]].superseded {
          all := all + [HitOf(nodes, found[i], q, close)];
        }
      }
      assert found[..|found|] == found;
      hits := if |all| > k then Sort(all, Better)[..k] else Sort(all, Better);
      HitsDistinct(nodes, ordinals, deleted, found, q, close);
      TopHits(all, k, hits);
      HitsAreLive(nodes, ordinals, deleted, found, q, close);
      AnswersFrom(nodes, deleted, q, close, found, all, k, hits);
    }

    method Remove(id: nat)
      requires Valid()
      modifies this`deleted
      ensures Valid() && deleted == old(deleted) + {id}
    {
      deleted := deleted + {id};
    }

    function BeamWidth(k: nat, efOverride: nat): (ef: nat)
      ensures ef >= k && ef >= (if efOverride != 0 then efOverride else efSearch)
      ensures ef == k || ef == if efOverride != 0 then efOverride else efSearch
    {
      var ef := if efOverride != 0 then efOverride else efSearch;
      if ef < k then k else ef
    }

    /** The greedy descent from the entry down to the layer above the new node's top. */
    method Descend(query: Vector, level: nat, ordinal: nat) returns (cur: nat)
      requires GraphOk(nodes, m) && maxLayer >= 0 && HasLayer(nodes, entry, maxLayer) && entry != ordinal
      requires forall l: nat :: Unlinked(nodes, ordinal, l)
      ensures cur != ordinal && HasLayer(nodes, cur, if level < maxLayer then level else maxLayer)
      ensures Descended(nodes, ScoreBy(nodes, walk, query), entry, maxLayer, level, cur)
    {
      hide GraphOk, Found, Unlinked, Neighbours, Descended;
      cur := entry;
      var lc := maxLayer;
      while lc > level
        invariant 0 <= lc <= maxLayer && (lc >= level || lc == maxLayer) && cur != ordinal && HasLayer(nodes, cur, lc)
        invariant forall c :: Descended(nodes, ScoreBy(nodes, walk, query), cur, lc, level, c) ==>
          Descended(nodes, ScoreBy(nodes, walk, query), entry, maxLayer, level, c)
        decreases lc
      {
        var found, visited := SearchLayer(nodes, lc, cur, 1, ScoreBy(nodes, walk, query));
        FoundIsOld(nodes, m, lc, cur, 1, ScoreBy(nodes, walk, query), visited, found, ordinal);
        DescendHop(nodes, ScoreBy(nodes, walk, query), cur, lc, level, visited, found);
        assert found[0] in found;
        cur := found[0];
        lc := lc - 1;
      }
      ArrivedAt(nodes, ScoreBy(nodes, walk, query), cur, lc, level);
    }

    /** Linking the new node into every layer it shares with the graph, from the top down. */
    method LinkLayers(query: Vector, level: nat, ordinal: nat, start: nat) returns (ghost found: seq<seq<nat>>)
      requires GraphOk(nodes, m) && maxLayer >= 0 && start != ordinal && HasLayer(nodes, ordinal, level) && nodes[ordinal].vector == query
      requires HasLayer(nodes, start, if level < maxLayer then level else maxLayer)
      requires forall l: nat :: Unlinked(nodes, ordinal, l)
      modifies this`nodes
      ensures GraphOk(nodes, m) && SameShape(old(nodes), nodes)
      ensures m > 0 ==> forall l: nat :: l <= level && l <= maxLayer ==> Neighbours(nodes, ordinal, l) != []
      ensures var top := if level < maxLayer then level else maxLayer;
        |found| == top + 1 &&
        Woven(old(nodes), nodes, ordinal, start, top, found, efConstruction, ScoreBy(old(nodes), walk, query), m, close)
    {
      hide GraphOk, Found, Unlinked, Neighbours, SameShape, Connected, Woven, ScoreBy;
      ghost var staged := nodes;
      SameShapeSelf(nodes);
      var cur := start;
      var lc: int := if level < maxLayer then level else maxLayer;
      ghost var top: nat := lc;
      found := [];
      NothingWoven(nodes, ordinal, start, top, efConstruction, ScoreBy(staged, walk, query), m, close);
      while lc >= 0
        invariant -1 <= lc <= level && lc <= maxLayer && cur != ordinal && (lc >= 0 ==> HasLayer(nodes, cur, lc))
        invariant GraphOk(nodes, m) && SameShape(staged, nodes) && HasLayer(nodes, ordinal, level)
        invariant forall l: nat :: l <= lc ==> Unlinked(nodes, ordinal, l)
        invariant m > 0 ==> forall l: nat :: lc < l <= level && l <= maxLayer ==> Neighbours(nodes, ordinal, l) != []
        invariant |found| == top - lc && cur == From(start, found, |found|)
        invariant Woven(staged, nodes, ordinal, start, top, found, efConstruction, ScoreBy(staged, walk, query), m, close)
        decreases lc
      {
        var cands, visited := SearchLayer(nodes, lc, cur, efConstruction, ScoreBy(nodes, walk, query));
        FoundIsOld(nodes, m, lc, cur, efConstruction, ScoreBy(nodes, walk, query), visited, cands, ordinal);
        assert cands[0] in cands;
        cur := cands[0];
        ghost var unlinked := nodes;
        LowerLayer(nodes, ordinal, level, lc);
        Connect(ordinal, lc, cands);
        WovenNext(staged, unlinked, nodes, ordinal, start, top, found, cands, visited, efConstruction, walk, query, m, close);
        LowerUnlinked(unlinked, nodes, ordinal, lc, cands, m, close, staged);
        LowerLayer(nodes, cur, lc, if lc == 0 then 0 else lc - 1);
        found := found + [cands];
        lc := lc - 1;
      }
    }
  }

  /** The query padded or cut to the index's dimension. */
  function Fit(query: Vector, dimension: nat): (r: Vector)
    ensures |r| == dimension && forall i :: 0 <= i < dimension ==> r[i] == if i < |query| then query[i] else 0.0
  {
    if |query| >= dimension then query[..dimension] else query + seq(dimension - |query|, _ => 0.0)
  }

  /** A node that may be returned. */
  predicate Live(nodes: Nodes, deleted: set<nat>, n: nat) {
    n < |nodes| && nodes[n].id !in deleted && !nodes[n].superseded
  }

  function HitOf(nodes: Nodes, n: nat, query: Vector, close: Similarity): Hit
    requires n < |nodes|
  {
    Hit(nodes[n].id, close(nodes[n].vector, query))
  }

  /** The hits of the live nodes among those found. */
  function Hits(nodes: Nodes, deleted: set<nat>, found: seq<nat>, query: Vector, close: Similarity): seq<Hit> {
    if found == [] then []
    else
      var n := found[|found| - 1];
      var rest := Hits(nodes, deleted, found[..|found| - 1], query, close);
      if Live(nodes, deleted, n) then rest + [HitOf(nodes, n, query, close)] else rest
  }

  lemma {:induction false} HitsAre(nodes: Nodes, deleted: set<nat>, found: seq<nat>, query: Vector, close: Similarity)
    ensures forall h :: h in Hits(nodes, deleted, found, query, close) <==>
      exists n :: n in found && Live(nodes, deleted, n) && h == HitOf(nodes, n, query, close)
  {
    if found != [] {
      var k := |found| - 1;
      HitsAre(nodes, deleted, found[..k], query, close);
      assert found == found[..k] + [found[k]];
    }
  }

  /** Distinct nodes have distinct ids once superseded nodes are left out. */
  lemma {:induction false} HitsDistinct(nodes: Nodes, ordinals: map<nat, nat>, deleted: set<nat>, found: seq<nat>, query: Vector, close: Similarity)
    requires IdsOk(nodes, ordinals) && Distinct(found)
    ensures DistinctIds(Hits(nodes, deleted, found, query, close))
  {
    if found != [] {
      var k := |found| - 1;
      HitsDistinct(nodes, ordinals, deleted, found[..k], query, close);
      HitsAre(nodes, deleted, found[..k], query, close);
      var rest := Hits(nodes, deleted, found[..k], query, close);
      hide Hits;
      forall i | 0 <= i < |rest| && Live(nodes, deleted, found[k])
        ensures rest[i].id != nodes[found[k]].id
      {
        assert rest[i] in rest;
        var n :| n in found[..k] && Live(nodes, deleted, n) && rest[i] == HitOf(nodes, n, query, close);
        assert n != found[k];
      }
    }
  }

  /** The id's live node, not deleted, under its exact score. */
  ghost predicate LiveHit(nodes: Nodes, ordinals: map<nat, nat>, deleted: set<nat>, query: Vector, close: Similarity, h: Hit) {
    h.id in ordinals && h.id !in deleted && ordinals[h.id] < |nodes| && h == HitOf(nodes, ordinals[h.id], query, close)
  }

  lemma HitsAreLive(nodes: Nodes, ordinals: map<nat, nat>, deleted: set<nat>, found: seq<nat>, query: Vector, close: Similarity)
    requires IdsOk(nodes, ordinals)
    ensures forall h :: h in Hits(nodes, deleted, found, query, close) ==> LiveHit(nodes, ordinals, deleted, query, close, h)
  {
    HitsAre(nodes, deleted, found, query, close);
    hide Hits;
  }

  /** From the entry down to the base layer, and there a search with this beam. */
  ghost predicate SearchedFrom(nodes: Nodes, entry: nat, maxLayer: int, ef: nat, score: Scores, start: nat, visited: set<nat>,
                               found: seq<nat>)
  {
    maxLayer >= 0 && Descended(nodes, score, entry, maxLayer, 0, start) && Found(nodes, 0, start, ef, score, visited, found)
  }

  /** The hits are live nodes among those found, and every live node found is a hit or was crowded out by k better ones. */
  ghost predicate Answers(nodes: Nodes, deleted: set<nat>, query: Vector, close: Similarity, found: seq<nat>, k: nat, hits: seq<Hit>) {
    (forall h :: h in hits ==> exists n :: n in found && Live(nodes, deleted, n) && h == HitOf(nodes, n, query, close)) &&
    forall n :: n in found && Live(nodes, deleted, n) ==> Ranked(hits, k, HitOf(nodes, n, query, close))
  }

  lemma AnswersFrom(nodes: Nodes, deleted: set<nat>, query: Vector, close: Similarity, found: seq<nat>, all: seq<Hit>, k: nat,
                    hits: seq<Hit>)
    requires all == Hits(nodes, deleted, found, query, close) && (forall h :: h in hits ==> h in all)
    requires forall h :: h in all ==> Ranked(hits, k, h)
    ensures Answers(nodes, deleted, query, close, found, k, hits)
  {
    HitsAre(nodes, deleted, found, query, close);
    hide Hits, Ranked;
  }

  lemma Nothing()
    ensures DistinctIds([]) && SortedBy([], Better)
  {
  }

  lemma SearchedNow(nodes: Nodes, entry: nat, maxLayer: int, ef: nat, score: Scores, start: nat, visited: set<nat>, found: seq<nat>)
    requires maxLayer >= 0 && Descended(nodes, score, entry, maxLayer, 0, start) && Found(nodes, 0, start, ef, score, visited, found)
    ensures SearchedFrom(nodes, entry, maxLayer, ef, score, start, visited, found)
  {
  }

  /** A beam as wide as the graph misses nothing that is reachable, and in a whole graph nothing at all. */
  lemma AnswersWide(nodes: Nodes, deleted: set<nat>, query: Vector, close: Similarity, start: nat, ef: nat, score: Scores,
                    visited: set<nat>, found: seq<nat>, k: nat, hits: seq<Hit>)
    requires Found(nodes, 0, start, ef, score, visited, found) && Answers(nodes, deleted, query, close, found, k, hits)
    requires start < |nodes|
    ensures ef >= |nodes| ==>
      forall n :: Live(nodes, deleted, n) && Reaches(nodes, 0, start, n) ==> Ranked(hits, k, HitOf(nodes, n, query, close))
    ensures ef >= |nodes| && Whole(nodes) ==>
      forall n :: Live(nodes, deleted, n) ==> Ranked(hits, k, HitOf(nodes, n, query, close))
  {
    hide Reaches, Ranked, Whole;
    WholeReaches(nodes, start);
  }

  lemma WholeReaches(nodes: Nodes, start: nat)
    requires start < |nodes|
    ensures Whole(nodes) ==> forall n: nat :: n < |nodes| ==> Reaches(nodes, 0, start, n)
  {
    hide Reaches;
  }

  lemma OnlyHit(nodes: Nodes, m: nat, deleted: set<nat>, query: Vector, close: Similarity, start: nat, ef: nat, score: Scores,
                visited: set<nat>, found: seq<nat>, k: nat, hits: seq<Hit>)
    requires Found(nodes, 0, start, ef, score, visited, found) && Answers(nodes, deleted, query, close, found, k, hits)
    requires |hits| <= k && DistinctIds(hits)
    ensures |nodes| == 1 && Live(nodes, deleted, 0) && k > 0 ==> hits == [HitOf(nodes, 0, query, close)]
  {
    hide Reaches;
    if |nodes| == 1 && Live(nodes, deleted, 0) && k > 0 {
      assert found[0] in found;
      assert 0 in found;
      var h := HitOf(nodes, 0, query, close);
      assert forall x :: x in hits ==> x == h;
      assert forall i :: 0 <= i < |hits| ==> hits[i] in hits;
      assert h in hits;
      assert |hits| > 1 ==> hits[0].id != hits[1].id;
    }
  }

  lemma NoHits(nodes: Nodes, deleted: set<nat>, found: seq<nat>, query: Vector, close: Similarity)
    ensures Hits(nodes, deleted, found[..0], query, close) == []
  {
  }

  lemma HitsNext(nodes: Nodes, deleted: set<nat>, found: seq<nat>, i: nat, query: Vector, close: Similarity)
    requires i < |found|
    ensures Hits(nodes, deleted, found[..i + 1], query, close) == Hits(nodes, deleted, found[..i], query, close) +
      if Live(nodes, deleted, found[i]) then [HitOf(nodes, found[i], query, close)] else []
  {
    assert found[..i + 1][..i] == found[..i];
  }

  lemma FoundHas(nodes: Nodes, m: nat, layer: nat, cur: nat, ef: nat, score: Scores, visited: set<nat>, out: seq<nat>)
    requires GraphOk(nodes, m) && HasLayer(nodes, cur, layer) && Found(nodes, layer, cur, ef, score, visited, out)
    ensures out != [] && HasLayer(nodes, out[0], layer)
  {
    hide GraphOk, HasLayer;
    assert out[0] in out;
    assert Reaches(nodes, layer, cur, out[0]);
    var p :| Path(nodes, layer, p) && p[0] == cur && p[|p| - 1] == out[0];
    ReachedHasLayer(nodes, m, layer, p);
  }

  lemma FoundFacts(nodes: Nodes, layer: nat, cur: nat, ef: nat, score: Scores, visited: set<nat>, out: seq<nat>)
    requires Found(nodes, layer, cur, ef, score, visited, out)
    ensures Distinct(out) && (ef >= |nodes| ==> forall y :: Reaches(nodes, layer, cur, y) ==> y in out)
  {
    hide Reaches;
  }

  lemma LowerLayer(nodes: Nodes, n: nat, layer: nat, lower: nat)
    requires HasLayer(nodes, n, layer) && lower <= layer
    ensures HasLayer(nodes, n, lower)
  {
  }

  /** Staging the new node: everything an insertion needs of it. */
  lemma StagedOk(before: Nodes, m: nat, ordinals: map<nat, nat>, id: nat, vector: Vector, level: nat, entry: nat, maxLayer: int)
    requires GraphOk(before, m) && IdsOk(before, ordinals) && EntryOk(before, entry, maxLayer)
    ensures var staged := Staged(before, ordinals, id, vector, level);
      GraphOk(staged, m) && IdsOk(staged, ordinals[id := |before|]) && |staged| == |before| + 1 && SameShape(staged, staged) &&
      NoLists(staged[|before|]) && HasLayer(staged, |before|, level) && |staged[|before|].links| == level + 1 && staged[|before|].vector == vector &&
      (forall n :: 0 <= n < |before| ==> staged[n].links == before[n].links) &&
      (forall l: nat :: Unlinked(staged, |before|, l)) &&
      (maxLayer >= 0 ==> entry < |before| && HasLayer(staged, entry, maxLayer))
  {
    hide GraphOk, IdsOk, Unlinked;
    var added := Node(id, false, vector, seq(level + 1, _ => []));
    SupersedeOk(before, m, ordinals, id);
    IdsNext(before, ordinals, added);
    WithNodeOk(Supersede(before, ordinals, id), m, added);
  }

  /** One node more; the others keep their id, vector and layers, and only the id's former node is newly
      superseded. */
  ghost predicate Inserted(before: Nodes, ordinals: map<nat, nat>, after: Nodes, id: nat, vector: Vector, level: nat) {
    |after| == |before| + 1 && after[|before|].id == id && !after[|before|].superseded &&
    after[|before|].vector == vector && |after[|before|].links| == level + 1 &&
    forall n :: 0 <= n < |before| ==>
      after[n].id == before[n].id && after[n].vector == before[n].vector && |after[n].links| == |before[n].links| &&
      (after[n].superseded <==> before[n].superseded || (id in ordinals && ordinals[id] == n))
  }

  lemma InsertedBy(before: Nodes, ordinals: map<nat, nat>, after: Nodes, id: nat, vector: Vector, level: nat)
    requires SameShape(Staged(before, ordinals, id, vector, level), after)
    ensures Inserted(before, ordinals, after, id, vector, level)
  {
  }

  lemma SameShapeSelf(nodes: Nodes)
    ensures SameShape(nodes, nodes)
  {
  }

  lemma FirstEntry(before: Nodes, entry: nat, maxLayer: int, nodes: Nodes, ordinal: nat, level: nat)
    requires EntryOk(before, entry, maxLayer) && maxLayer < 0 && ordinal == |before| && |nodes| == |before| + 1
    requires |nodes[ordinal].links| == level + 1
    ensures EntryOk(nodes, ordinal, level)
  {
  }

  lemma NextEntry(before: Nodes, entry: nat, maxLayer: int, staged: Nodes, nodes: Nodes, ordinal: nat, level: nat)
    requires EntryOk(before, entry, maxLayer) && maxLayer >= 0 && ordinal == |before| && |staged| == |before| + 1
    requires (forall n :: 0 <= n < |before| ==> staged[n].links == before[n].links) && |staged[ordinal].links| == level + 1
    requires SameShape(staged, nodes)
    ensures if level > maxLayer then EntryOk(nodes, ordinal, level) else EntryOk(nodes, entry, maxLayer)
  {
  }

  /** The index with a new node that is linked to nothing yet. */
  function Staged(before: Nodes, ordinals: map<nat, nat>, id: nat, vector: Vector, level: nat): Nodes {
    WithNode(Supersede(before, ordinals, id), Node(id, false, vector, seq(level + 1, _ => [])))
  }

  /** A first node stays as it was staged; any other descends from the entry and is linked layer by layer. */
  ghost predicate LinkedIn(staged: Nodes, after: Nodes, node: nat, entry: nat, maxLayer: int, level: nat, start: nat,
                           found: seq<seq<nat>>, ef: nat, score: Scores, m: nat, close: Similarity)
  {
    if maxLayer < 0 then after == staged
    else
      var top := if level < maxLayer then level else maxLayer;
      Descended(staged, score, entry, maxLayer, level, start) && |found| == top + 1 &&
      Woven(staged, after, node, start, top, found, ef, score, m, close)
  }

  lemma LinkedAlone(staged: Nodes, node: nat, entry: nat, maxLayer: int, level: nat, start: nat, found: seq<seq<nat>>, ef: nat,
                    score: Scores, m: nat, close: Similarity)
    requires maxLayer < 0
    ensures LinkedIn(staged, staged, node, entry, maxLayer, level, start, found, ef, score, m, close)
  {
  }

  lemma LinkedNow(staged: Nodes, after: Nodes, node: nat, entry: nat, maxLayer: int, level: nat, start: nat, found: seq<seq<nat>>,
                  ef: nat, score: Scores, m: nat, close: Similarity)
    requires maxLayer >= 0 && Descended(staged, score, entry, maxLayer, level, start)
    requires var top := if level < maxLayer then level else maxLayer;
      |found| == top + 1 && Woven(staged, after, node, start, top, found, ef, score, m, close)
    ensures LinkedIn(staged, after, node, entry, maxLayer, level, start, found, ef, score, m, close)
  {
    hide Descended, Woven;
  }

  lemma HasEntry(nodes: Nodes, entry: nat, maxLayer: int)
    requires EntryOk(nodes, entry, maxLayer)
    ensures maxLayer < 0 <==> nodes == []
    ensures nodes != [] ==> HasLayer(nodes, entry, maxLayer)
  {
  }

  lemma SameSize(a: Nodes, b: Nodes)
    requires SameShape(a, b)
    ensures |a| == |b|
  {
  }

  lemma OneIsWhole(nodes: Nodes)
    requires |nodes| == 1
    ensures Whole(nodes)
  {
    ReachesSelf(nodes, 0, 0);
  }

  /** The base layer of a linked node, and what follows for reachability. */
  lemma AddedWhole(before: Nodes, staged: Nodes, after: Nodes, start: nat, top: nat, found: seq<seq<nat>>, ef: nat, score: Scores,
                   m: nat, close: Similarity)
    requires GraphOk(before, m) && before != [] && |staged| == |before| + 1 && SameShape(staged, after)
    requires (forall n :: 0 <= n < |before| ==> staged[n].links == before[n].links) && NoLists(staged[|before|])
    requires |found| == top + 1 && Woven(staged, after, |before|, start, top, found, ef, score, m, close)
    requires m > 0 ==> Neighbours(after, |before|, 0) != []
    requires |before| <= 2 * m + 1 ==> Whole(before)
    ensures m > 0 && Whole(before) && Unpruned(before, after, |before|, m) ==> Whole(after)
    ensures |after| <= 2 * m + 1 ==> Whole(after)
  {
    hide GraphOk, Whole, Unpruned, LayerLinked, Found;
    assert LinkedAt(staged, after, |before|, top - top, From(start, found, top), found[top], ef, score, m, close);
    BaseLists(before, staged);
    if m > 0 && Whole(before) && Unpruned(before, after, |before|, m) {
      StaysWhole(before, staged, after, found[top], m, close);
    }
    if |after| <= 2 * m + 1 {
      FewUnpruned(before, after, |before|, m);
    }
  }

  lemma BaseLists(before: Nodes, staged: Nodes)
    requires |staged| == |before| + 1
    requires (forall n :: 0 <= n < |before| ==> staged[n].links == before[n].links) && NoLists(staged[|before|])
    ensures (forall k: nat :: k < |before| ==> Neighbours(staged, k, 0) == Neighbours(before, k, 0)) && Neighbours(staged, |before|, 0) == []
  {
  }

  lemma Arrived(nodes: Nodes, score: Scores, cur: nat)
    ensures Descended(nodes, score, cur, 0, 0, cur)
  {
  }

  lemma ArrivedAt(nodes: Nodes, score: Scores, cur: nat, top: nat, bottom: nat)
    requires top <= bottom
    ensures Descended(nodes, score, cur, top, bottom, cur)
  {
  }

  lemma LowerUnlinked(before: Nodes, after: Nodes, ordinal: nat, layer: nat, cands: seq<nat>, m: nat, close: Similarity, staged: Nodes)
    requires GraphOk(before, m) && ordinal < |before| && InRange(before, cands) && SameShape(staged, before)
    requires Connected(before, after, ordinal, layer, cands, m, close)
    requires forall l: nat :: l <= layer ==> Unlinked(before, ordinal, l)
    ensures SameShape(staged, after) && (forall l: nat :: l < layer ==> Unlinked(after, ordinal, l))
    ensures forall k, l :: HasLayer(after, k, l) <==> HasLayer(before, k, l)
    ensures m > 0 && cands != [] && Distinct(cands) ==> Neighbours(after, ordinal, layer) != []
    ensures forall l: nat :: l != layer ==> Neighbours(after, ordinal, l) == Neighbours(before, ordinal, l)
  {
    hide Chosen, Backlinked;
    if Distinct(cands) {
      ChosenIs(before, ordinal, cands, Degree(m, layer), close);
    }
    forall l: nat | l < layer
      ensures Unlinked(after, ordinal, l)
    {
      assert Unlinked(before, ordinal, l);
      hide Neighbours;
    }
  }

  lemma ListIs(nodes: Nodes, n: nat, layer: nat)
    requires HasLayer(nodes, n, layer)
    ensures Neighbours(nodes, n, layer) == nodes[n].links[layer]
  {
  }

  lemma BackIs(nodes: Nodes, nb: nat, node: nat, layer: nat, m: nat, close: Similarity)
    requires nb < |nodes| && node < |nodes| && InRange(nodes, Neighbours(nodes, nb, layer))
    ensures var list := Neighbours(nodes, nb, layer);
      var added := if node in list then list else list + [node];
      InRange(nodes, added) && Backlinked(nodes, nb, node, layer, m, close) ==
      if |added| > Degree(m, layer) then Chosen(nodes, nb, added, Degree(m, layer), close) else added
  {
  }

  lemma ConnectedLayers(before: Nodes, now: Nodes, node: nat, layer: nat, chosen: seq<nat>, i: nat, m: nat, close: Similarity)
    requires GraphOk(before, m) && node < |before| && i <= |chosen| && Connecting(before, now, node, layer, chosen, i, m, close)
    ensures |now| == |before| && forall k, l :: HasLayer(now, k, l) <==> HasLayer(before, k, l)
  {
  }
}
