/** Order does not matter: operations with at most one per document and revision leave the same
    catalog in whatever order, and however often, they are applied. */
module Convergence {
  import opened Wrappers
  import opened Documents

  datatype Op = Upsert(p: PreparedDocument, revision: nat) | Remove(d: DocKey, revision: nat)

  function Target(op: Op): DocKey { if op.Upsert? then op.p.key else op.d }

  /** A stale operation is refused and changes nothing. */
  function StepOp(c: Catalog, op: Op): Catalog {
    match op
    case Upsert(p, revision) =>
      var r := Documents.Activate(c, p, revision);
      if r.Ok? then r.value else c
    case Remove(d, revision) =>
      var r := Documents.Erase(c, d, revision);
      if r.Ok? then r.value.0 else c
  }

  function RunOps(c: Catalog, ops: seq<Op>): Catalog {
    if ops == [] then c else StepOp(RunOps(c, ops[..|ops| - 1]), ops[|ops| - 1])
  }

  ghost predicate OnePerRevision(ops: seq<Op>) {
    forall a, b :: a in ops && b in ops && Target(a) == Target(b) && a.revision == b.revision ==> a == b
  }

  ghost predicate Highest(ops: seq<Op>, op: Op) {
    op in ops && forall b :: b in ops && Target(b) == Target(op) ==> b.revision <= op.revision
  }

  ghost predicate Untouched(ops: seq<Op>, d: DocKey) { forall op :: op in ops ==> Target(op) != d }

  /** The catalog is at this operation's revision with this operation's effect. */
  ghost predicate Shows(c: Catalog, op: Op) {
    var d := Target(op);
    d in c.revisions && c.revisions[d] == op.revision &&
    if op.Upsert? then d in c.documents && c.documents[d] == Active(op.revision, op.p) else d !in c.documents
  }

  ghost predicate Reflects(c: Catalog, ops: seq<Op>) {
    (forall op :: Highest(ops, op) ==> Shows(c, op)) &&
    (forall d :: Untouched(ops, d) ==> d !in c.revisions && d !in c.documents)
  }

  /** Every document touched has a highest operation. */
  lemma {:induction false} HighestExists(ops: seq<Op>, d: DocKey) returns (op: Op)
    requires !Untouched(ops, d)
    ensures Highest(ops, op) && Target(op) == d
  {
    var n := |ops| - 1;
    assert ops == ops[..n] + [ops[n]];
    if Untouched(ops[..n], d) {
      op := ops[n];
    } else {
      op := HighestExists(ops[..n], d);
      if Target(ops[n]) == d && ops[n].revision > op.revision {
        op := ops[n];
      }
    }
  }

  lemma HighestBefore(ops: seq<Op>, d: DocKey) returns (top: Option<Op>)
    requires ops != []
    ensures top.None? ==> Untouched(ops[..|ops| - 1], d)
    ensures top.Some? ==> Highest(ops[..|ops| - 1], top.value) && Target(top.value) == d && top.value in ops
  {
    var rest := ops[..|ops| - 1];
    if Untouched(rest, d) {
      top := None;
    } else {
      var op := HighestExists(rest, d);
      top := Some(op);
    }
  }

  /** Whatever the order and the repeats, the highest revision of each document is what shows. */
  lemma {:induction false} Converges(ops: seq<Op>)
    requires OnePerRevision(ops)
    ensures Reflects(RunOps(EmptyCatalog, ops), ops) && CatalogOk(RunOps(EmptyCatalog, ops))
  {
    if ops != [] {
      var n := |ops| - 1;
      var rest, last := ops[..n], ops[n];
      assert ops == rest + [last];
      Converges(rest);
      var c := RunOps(EmptyCatalog, rest);
      var top := HighestBefore(ops, Target(last));
      LastShows(c, rest, last, top);
      OthersKept(c, rest, last);
      hide RunOps, StepOp;
    }
  }

  /** After the last operation, its document shows the higher of it and what came before. */
  lemma LastShows(c: Catalog, rest: seq<Op>, last: Op, top: Option<Op>)
    requires OnePerRevision(rest + [last]) && Reflects(c, rest) && CatalogOk(c)
    requires top.None? ==> Untouched(rest, Target(last))
    requires top.Some? ==> Highest(rest, top.value) && Target(top.value) == Target(last) && top.value in rest + [last]
    ensures CatalogOk(StepOp(c, last))
    ensures forall op :: Highest(rest + [last], op) && Target(op) == Target(last) ==> Shows(StepOp(c, last), op)
  {
    var ops := rest + [last];
    assert last in ops;
    assert forall b :: b in rest ==> b in ops;
    forall op | Highest(ops, op) && Target(op) == Target(last)
      ensures Shows(StepOp(c, last), op)
    {
      if top.Some? {
        assert Shows(c, top.value);
        assert op.revision >= top.value.revision && op.revision >= last.revision;
        assert op == last || op == top.value;
      } else {
        assert op == last;
      }
    }
  }

  lemma OthersKept(c: Catalog, rest: seq<Op>, last: Op)
    requires Reflects(c, rest)
    ensures forall op :: Highest(rest + [last], op) && Target(op) != Target(last) ==> Shows(StepOp(c, last), op)
    ensures forall d :: Untouched(rest + [last], d) ==> d !in StepOp(c, last).revisions && d !in StepOp(c, last).documents
  {
    var ops := rest + [last];
    assert last in ops;
    assert forall b :: b in rest ==> b in ops;
    forall op | Highest(ops, op) && Target(op) != Target(last)
      ensures Shows(StepOp(c, last), op)
    {
      assert Highest(rest, op);
    }
    forall d | Untouched(ops, d)
      ensures d !in StepOp(c, last).revisions && d !in StepOp(c, last).documents
    {
      assert Untouched(rest, d);
    }
  }

  /** Two runs over the same operations end alike. */
  lemma AnyOrder(ops: seq<Op>, ops': seq<Op>)
    requires OnePerRevision(ops) && forall op :: op in ops <==> op in ops'
    ensures RunOps(EmptyCatalog, ops) == RunOps(EmptyCatalog, ops')
  {
    hide *;
    SameOps(ops, ops');
    Converges(ops);
    Converges(ops');
    var c, c' := RunOps(EmptyCatalog, ops), RunOps(EmptyCatalog, ops');
    forall d
      ensures SameAt(c, c', d)
    {
      EndsAlike(c, c', ops, ops', d);
    }
    SameCatalog(c, c');
  }

  lemma SameOps(ops: seq<Op>, ops': seq<Op>)
    requires OnePerRevision(ops) && forall op :: op in ops <==> op in ops'
    ensures OnePerRevision(ops')
  {
  }

  lemma SameCatalog(c: Catalog, c': Catalog)
    requires forall d :: SameAt(c, c', d)
    ensures c == c'
  {
    forall d
      ensures d in c.revisions <==> d in c'.revisions
      ensures d in c.documents <==> d in c'.documents
      ensures d in c.revisions ==> c.revisions[d] == c'.revisions[d]
      ensures d in c.documents ==> c.documents[d] == c'.documents[d]
    {
      assert SameAt(c, c', d);
    }
  }

  predicate SameAt(c: Catalog, c': Catalog, d: DocKey) {
    (d in c.revisions <==> d in c'.revisions) && (d in c.documents <==> d in c'.documents) &&
    (d in c.revisions ==> c.revisions[d] == c'.revisions[d]) && (d in c.documents ==> c.documents[d] == c'.documents[d])
  }

  lemma EndsAlike(c: Catalog, c': Catalog, ops: seq<Op>, ops': seq<Op>, d: DocKey)
    requires Reflects(c, ops) && Reflects(c', ops') && CatalogOk(c) && CatalogOk(c')
    requires forall op :: op in ops <==> op in ops'
    ensures SameAt(c, c', d)
  {
    if Untouched(ops, d) {
      assert Untouched(ops', d);
    } else {
      var op := HighestExists(ops, d);
      assert Highest(ops', op);
      assert Shows(c, op) && Shows(c', op);
    }
  }
}
