/** Beam search of one layer. The two heaps are sets of nodes from which the best or the weakest is taken;
    ties are broken arbitrarily. */
module HnswSearch {
  import opened Collections
  import opened Sorting
  import opened HnswGraph

  type Scores = nat -> real

  datatype Beam = Beam(visited: set<nat>, cand: set<nat>, result: set<nat>)

  method TakeBest(s: set<nat>, score: Scores) returns (best: nat)
    requires s != {}
    ensures best in s && forall x :: x in s ==> score(x) <= score(best)
  {
    best :| best in s;
    var rest := s - {best};
    while rest != {}
      invariant best in s && rest <= s && forall x :: x in s && x !in rest ==> score(x) <= score(best)
      decreases |rest|
    {
      var x :| x in rest;
      if score(x) > score(best) {
        best := x;
      }
      rest := rest - {x};
    }
  }

  method TakeWeakest(s: set<nat>, score: Scores) returns (weakest: nat)
    requires s != {}
    ensures weakest in s && forall x :: x in s ==> score(weakest) <= score(x)
  {
    weakest :| weakest in s;
    var rest := s - {weakest};
    while rest != {}
      invariant weakest in s && rest <= s && forall x :: x in s && x !in rest ==> score(weakest) <= score(x)
      decreases |rest|
    {
      var x :| x in rest;
      if score(x) < score(weakest) {
        weakest := x;
      }
      rest := rest - {x};
    }
  }

  // ------------------------------------------------------------------------- the beam

  /** Nothing visited that was left out is strictly better than anything kept, and nothing is left out
      before the beam is full. */
  ghost predicate Kept(visited: set<nat>, result: set<nat>, ef: nat, score: Scores) {
    result <= visited && result != {} && |result| <= Bound(ef) &&
    (forall v, r :: v in visited && v !in result && r in result ==> score(v) <= score(r)) &&
    (visited != result ==> |result| >= ef)
  }

  function Bound(ef: nat): nat { if ef == 0 then 1 else ef }

  /** Everything visited is a node reachable from the entry. */
  ghost predicate Walked(nodes: Nodes, layer: nat, entry: nat, visited: set<nat>) {
    entry in visited && forall v :: v in visited ==> v < |nodes| && Reaches(nodes, layer, entry, v)
  }

  /** The neighbours of every expanded node have been visited, and what is kept is on the frontier, has been
      expanded, or is in hand. */
  ghost predicate Expanded(nodes: Nodes, layer: nat, b: Beam, done: set<nat>, inHand: set<nat>) {
    b.cand <= b.visited && done <= b.visited && b.result <= b.cand + done + inHand &&
    forall n, x :: n in done && Step(nodes, layer, n, x) ==> x in b.visited
  }

  /** A beam at least as wide as the graph leaves nothing out. */
  ghost predicate Wide(nodes: Nodes, ef: nat, b: Beam) {
    ef >= |nodes| ==> b.result == b.visited
  }

  lemma AdmitKeeps(b: Beam, ef: nat, score: Scores, x: nat, weakest: nat)
    requires Kept(b.visited, b.result, ef, score) && x !in b.visited
    requires weakest in b.result && forall r :: r in b.result ==> score(weakest) <= score(r)
    ensures |b.result| < ef ==> Kept(b.visited + {x}, b.result + {x}, ef, score)
    ensures |b.result| >= ef && score(x) > score(weakest) ==> Kept(b.visited + {x}, b.result - {weakest} + {x}, ef, score)
    ensures |b.result| >= ef && score(x) <= score(weakest) ==> Kept(b.visited + {x}, b.result, ef, score)
  {
    var visited := b.visited + {x};
    if |b.result| < ef {
      assert b.visited == b.result;
    } else if score(x) > score(weakest) {
      var result := b.result - {weakest} + {x};
      assert |result| == |b.result|;
      forall v, r | v in visited && v !in result && r in result
        ensures score(v) <= score(r)
      {
        assert v == weakest || (v in b.visited && v !in b.result);
        assert score(v) <= score(weakest);
      }
    }
  }

  /** One unvisited neighbour is scored and admitted if there is room or it beats the weakest. */
  method Admit(b: Beam, ef: nat, score: Scores, x: nat) returns (next: Beam)
    requires Kept(b.visited, b.result, ef, score) && x !in b.visited
    ensures Admitted(b, x, ef, next) && Kept(next.visited, next.result, ef, score)
  {
    var weakest := TakeWeakest(b.result, score);
    AdmitKeeps(b, ef, score, x, weakest);
    hide Kept;
    next := b.(visited := b.visited + {x});
    if |b.result| < ef {
      next := next.(result := b.result + {x}, cand := b.cand + {x});
    } else if score(x) > score(weakest) {
      next := next.(result := b.result - {weakest} + {x}, cand := b.cand + {x});
    }
  }

  ghost predicate Admitted(b: Beam, x: nat, ef: nat, next: Beam) {
    next.visited == b.visited + {x} && b.cand <= next.cand <= b.cand + {x} && next.result <= b.result + {x} &&
    (x in next.result ==> x in next.cand) && (|b.result| < ef ==> next.result == b.result + {x})
  }

  function FirstNodes(n: nat): (all: set<nat>)
    ensures |all| == n && forall x: nat :: x in all <==> x < n
  {
    if n == 0 then {}
    else
      var rest := FirstNodes(n - 1);
      assert n - 1 !in rest;
      rest + {n - 1}
  }

  lemma VisitedCount(nodes: Nodes, layer: nat, entry: nat, visited: set<nat>)
    requires Walked(nodes, layer, entry, visited)
    ensures |visited| <= |nodes|
    ensures forall x: nat :: x < |nodes| && x !in visited ==> |visited| < |nodes|
  {
    hide Reaches;
    var all := FirstNodes(|nodes|);
    SubsetSize(visited, all);
    forall x: nat | x < |nodes| && x !in visited
      ensures |visited| < |nodes|
    {
      SubsetSize(visited + {x}, all);
    }
  }

  ghost predicate BeamOk(nodes: Nodes, layer: nat, entry: nat, ef: nat, score: Scores, b: Beam) {
    Kept(b.visited, b.result, ef, score) && Walked(nodes, layer, entry, b.visited) && Wide(nodes, ef, b)
  }

  lemma AdmittedOk(nodes: Nodes, layer: nat, entry: nat, ef: nat, score: Scores, b: Beam, n: nat, x: nat, next: Beam)
    requires BeamOk(nodes, layer, entry, ef, score, b) && n in b.visited && Step(nodes, layer, n, x) && x !in b.visited
    requires Admitted(b, x, ef, next) && Kept(next.visited, next.result, ef, score)
    ensures BeamOk(nodes, layer, entry, ef, score, next)
  {
    hide Reaches;
    ReachesNext(nodes, layer, entry, n, x);
    VisitedCount(nodes, layer, entry, b.visited);
  }

  /** All neighbours of the node in hand are visited. */
  method Expand(nodes: Nodes, layer: nat, entry: nat, ef: nat, score: Scores, b: Beam, n: nat, ghost done: set<nat>)
    returns (next: Beam)
    requires BeamOk(nodes, layer, entry, ef, score, b) && n in b.visited && Expanded(nodes, layer, b, done, {n})
    ensures BeamOk(nodes, layer, entry, ef, score, next) && b.visited <= next.visited
    ensures next.visited == b.visited ==> next.cand == b.cand
    ensures Expanded(nodes, layer, next, done + {n}, {})
  {
    hide BeamOk, Expanded;
    next := b;
    var links := Neighbours(nodes, n, layer);
    for i := 0 to |links|
      invariant BeamOk(nodes, layer, entry, ef, score, next) && b.visited <= next.visited
      invariant next.visited == b.visited ==> next.cand == b.cand
      invariant Expanded(nodes, layer, next, done, {n})
      invariant forall j :: 0 <= j < i && links[j] < |nodes| ==> links[j] in next.visited
    {
      var x := links[i];
      if x < |nodes| && x !in next.visited {
        assert Step(nodes, layer, n, x);
        BeamKept(nodes, layer, entry, ef, score, next);
        var admitted := Admit(next, ef, score, x);
        AdmittedOk(nodes, layer, entry, ef, score, next, n, x, admitted);
        ExpandedNext(nodes, layer, next, done, {n}, x, ef, admitted);
        next := admitted;
      }
    }
    InHandDone(nodes, layer, next, done, n);
  }

  lemma InHandDone(nodes: Nodes, layer: nat, b: Beam, done: set<nat>, n: nat)
    requires Expanded(nodes, layer, b, done, {n}) && n in b.visited
    requires forall x :: Step(nodes, layer, n, x) ==> x in b.visited
    ensures Expanded(nodes, layer, b, done + {n}, {})
  {
    hide Step;
  }

  lemma BeamKept(nodes: Nodes, layer: nat, entry: nat, ef: nat, score: Scores, b: Beam)
    requires BeamOk(nodes, layer, entry, ef, score, b)
    ensures Kept(b.visited, b.result, ef, score) && Walked(nodes, layer, entry, b.visited) && Wide(nodes, ef, b)
  {
  }

  lemma ExpandedNext(nodes: Nodes, layer: nat, b: Beam, done: set<nat>, inHand: set<nat>, x: nat, ef: nat, next: Beam)
    requires Expanded(nodes, layer, b, done, inHand) && Admitted(b, x, ef, next)
    ensures Expanded(nodes, layer, next, done, inHand)
  {
    hide Step;
  }

  // ---------------------------------------------------------------------- the search

  function Nearer(score: Scores): (nat, nat) -> bool { (a: nat, b: nat) => score(a) >= score(b) }

  /** The members of a set, best first. */
  method BestFirst(s: set<nat>, score: Scores) returns (out: seq<nat>)
    ensures SortedBy(out, Nearer(score)) && Distinct(out) && |out| == |s| && forall x :: x in out <==> x in s
  {
    var rest, listed := s, [];
    while rest != {}
      invariant rest <= s && Distinct(listed) && |listed| == |s| - |rest| && forall x :: x in listed <==> x in s && x !in rest
      decreases |rest|
    {
      var x :| x in rest;
      assert x !in listed;
      rest, listed := rest - {x}, listed + [x];
    }
    hide Sort;
    out := Sort(listed, Nearer(score));
    assert TotalPreorder(Nearer(score));
    SortSorted(listed, Nearer(score));
    SameElements(listed, out);
    MultisetDistinct(listed, out);
  }

  /** What a layer search promises about the nodes it returns, given the nodes it visited: at most the beam
      width of them, distinct, reachable and best first; nothing visited that it left out is better than
      anything it returns; every neighbour of a returned node was visited; and a beam as wide as the graph
      returns everything reachable. */
  ghost predicate Found(nodes: Nodes, layer: nat, entry: nat, ef: nat, score: Scores, visited: set<nat>, out: seq<nat>) {
    1 <= |out| <= Bound(ef) && Distinct(out) && SortedBy(out, Nearer(score)) && (forall x :: x in out ==> x in visited) &&
    Walked(nodes, layer, entry, visited) &&
    (forall v, x :: v in visited && v !in out && x in out ==> |out| >= ef && score(v) <= score(x)) &&
    (forall x, y :: x in out && Step(nodes, layer, x, y) ==> y in visited) &&
    (ef >= |nodes| ==> forall y :: Reaches(nodes, layer, entry, y) ==> y in out)
  }

  method SearchLayer(nodes: Nodes, layer: nat, entry: nat, ef: nat, score: Scores)
    returns (out: seq<nat>, ghost visited: set<nat>)
    requires entry < |nodes|
    ensures Found(nodes, layer, entry, ef, score, visited, out)
  {
    hide BeamOk, Expanded;
    var b := Beam({entry}, {entry}, {entry});
    ghost var done: set<nat> := {};
    BeamStart(nodes, layer, entry, ef, score);
    while b.cand != {}
      invariant BeamOk(nodes, layer, entry, ef, score, b) && Expanded(nodes, layer, b, done, {})
      invariant |b.visited| <= |nodes|
      decreases |nodes| - |b.visited|, |b.cand|
    {
      BeamKept(nodes, layer, entry, ef, score, b);
      hide Kept, Walked, Wide;
      var c := TakeBest(b.cand, score);
      var weakest := TakeOne(b, ef, score);
      if score(c) < score(weakest) && |b.result| >= ef {
        AllExpanded(nodes, layer, b, done, score, c, weakest);
        break;
      }
      var popped := b.(cand := b.cand - {c});
      PoppedOk(nodes, layer, entry, ef, score, b, done, c);
      b := Expand(nodes, layer, entry, ef, score, popped, c, done);
      done := done + {c};
      BeamKept(nodes, layer, entry, ef, score, b);
      VisitedCount(nodes, layer, entry, b.visited);
      VisitedGrows(popped.visited, b.visited);
    }
    if b.cand == {} {
      NothingLeft(nodes, layer, b, done);
    }
    SearchEnds(nodes, layer, entry, ef, score, b, done);
    visited := b.visited;
    out := BestFirst(b.result, score);
    FoundFrom(nodes, layer, entry, ef, score, b, done, out);
  }

  method TakeOne(b: Beam, ef: nat, score: Scores) returns (weakest: nat)
    requires Kept(b.visited, b.result, ef, score)
    ensures weakest in b.result && forall x :: x in b.result ==> score(weakest) <= score(x)
  {
    weakest := TakeWeakest(b.result, score);
  }

  lemma BeamStart(nodes: Nodes, layer: nat, entry: nat, ef: nat, score: Scores)
    requires entry < |nodes|
    ensures BeamOk(nodes, layer, entry, ef, score, Beam({entry}, {entry}, {entry}))
    ensures Expanded(nodes, layer, Beam({entry}, {entry}, {entry}), {}, {})
  {
    ReachesSelf(nodes, layer, entry);
  }

  lemma VisitedGrows(a: set<nat>, b: set<nat>)
    requires a <= b
    ensures |a| <= |b| && (a != b ==> |a| < |b|)
  {
    SubsetSize(a, b);
    if a != b {
      var x :| x in b && x !in a;
      SubsetSize(a, b - {x});
    }
  }

  lemma PoppedOk(nodes: Nodes, layer: nat, entry: nat, ef: nat, score: Scores, b: Beam, done: set<nat>, c: nat)
    requires BeamOk(nodes, layer, entry, ef, score, b) && Expanded(nodes, layer, b, done, {}) && c in b.cand
    ensures BeamOk(nodes, layer, entry, ef, score, b.(cand := b.cand - {c})) && c in b.visited
    ensures Expanded(nodes, layer, b.(cand := b.cand - {c}), done, {c})
  {
    hide Kept, Walked, Step;
  }

  /** When the best candidate is worse than the weakest kept, everything kept has been expanded. */
  lemma AllExpanded(nodes: Nodes, layer: nat, b: Beam, done: set<nat>, score: Scores, c: nat, weakest: nat)
    requires Expanded(nodes, layer, b, done, {}) && score(c) < score(weakest)
    requires (forall x :: x in b.cand ==> score(x) <= score(c)) && (forall x :: x in b.result ==> score(weakest) <= score(x))
    ensures b.result <= done
  {
  }

  lemma NothingLeft(nodes: Nodes, layer: nat, b: Beam, done: set<nat>)
    requires Expanded(nodes, layer, b, done, {}) && b.cand == {}
    ensures b.result <= done
  {
  }

  lemma SearchEnds(nodes: Nodes, layer: nat, entry: nat, ef: nat, score: Scores, b: Beam, done: set<nat>)
    requires BeamOk(nodes, layer, entry, ef, score, b) && Expanded(nodes, layer, b, done, {}) && b.result <= done
    ensures forall x, y :: x in b.result && Step(nodes, layer, x, y) ==> y in b.visited
    ensures ef >= |nodes| ==> forall y :: Reaches(nodes, layer, entry, y) ==> y in b.result
  {
    hide Step;
    if ef >= |nodes| {
      forall y | Reaches(nodes, layer, entry, y)
        ensures y in b.result
      {
        var p :| Path(nodes, layer, p) && p[0] == entry && p[|p| - 1] == y;
        ClosedHolds(nodes, layer, b.visited, p);
      }
    }
  }

  lemma FoundFrom(nodes: Nodes, layer: nat, entry: nat, ef: nat, score: Scores, b: Beam, done: set<nat>, out: seq<nat>)
    requires BeamOk(nodes, layer, entry, ef, score, b)
    requires SortedBy(out, Nearer(score)) && Distinct(out) && |out| == |b.result| && forall x :: x in out <==> x in b.result
    requires forall x, y :: x in b.result && Step(nodes, layer, x, y) ==> y in b.visited
    requires ef >= |nodes| ==> forall y :: Reaches(nodes, layer, entry, y) ==> y in b.result
    ensures Found(nodes, layer, entry, ef, score, b.visited, out)
  {
    hide Step, Reaches;
  }
}
