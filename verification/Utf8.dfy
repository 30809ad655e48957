/** UTF-8 as the chunker sees it: the lead and continuation byte shape of section 3 of RFC 3629. */
module Utf8 {
  import opened Collections
  import opened Bytes

  predicate Continuation(b: byte) { 0x80 <= b < 0xC0 }

  /** The width a lead byte announces; anything that is no lead byte counts as one byte wide. */
  function Width(b: byte): (w: nat)
    ensures 1 <= w <= 4
  {
    if b < 0x80 then 1
    else if 0xC0 <= b < 0xE0 then 2
    else if 0xE0 <= b < 0xF0 then 3
    else if 0xF0 <= b < 0xF8 then 4
    else 1
  }

  predicate Complete(t: Blob, at: nat)
    requires at < |t|
  {
    at + Width(t[at]) <= |t| && forall i :: at < i < at + Width(t[at]) ==> Continuation(t[i])
  }

  /** The end of the scalar at `at`, or one byte on when there is none. */
  function NextUtf8(t: Blob, at: nat): (r: nat)
    ensures at < |t| ==> at < r <= |t| && r <= at + 4
    ensures at >= |t| ==> r == |t|
  {
    if at >= |t| then |t| else if Complete(t, at) then at + Width(t[at]) else at + 1
  }

  /** A byte below 0x80, or a lead byte with all its continuation bytes. */
  predicate ScalarAt(t: Blob, at: nat)
    requires at < |t|
  {
    Complete(t, at) && (t[at] < 0x80 || Width(t[at]) > 1)
  }

  /** A sequence of whole scalars. */
  predicate Shaped(t: Blob) {
    t == [] || (ScalarAt(t, 0) && Shaped(t[NextUtf8(t, 0)..]))
  }

  /** A scalar can be looked up from any suffix. */
  lemma NextShift(t: Blob, at: nat)
    requires at < |t|
    ensures NextUtf8(t, at) == at + NextUtf8(t[at..], 0) && (ScalarAt(t, at) <==> ScalarAt(t[at..], 0))
  {
    var s := t[at..];
    var w := Width(t[at]);
    if at + w <= |t| {
      assert forall i :: 0 < i < w ==> s[i] == t[at + i];
      assert Complete(t, at) ==> Complete(s, 0);
      if Complete(s, 0) {
        forall i | at < i < at + w
          ensures Continuation(t[i])
        {
          assert s[i - at] == t[i];
        }
      }
    }
  }

  /** The scalar itself is one. */
  lemma OneScalar(t: Blob)
    requires t != []
    ensures var s := t[..NextUtf8(t, 0)]; NextUtf8(s, 0) == |s| && (ScalarAt(t, 0) ==> Shaped(s))
  {
    var n := NextUtf8(t, 0);
    var s := t[..n];
    assert s[0] == t[0] && forall i :: 0 <= i < n ==> s[i] == t[i];
    assert Complete(t, 0) ==> Complete(s, 0);
    assert s[n..] == [];
    assert n > 1 ==> Complete(t, 0);
    assert NextUtf8(s, 0) == |s|;
    assert Shaped([]);
  }

  lemma {:induction false} ShapedAppend(a: Blob, b: Blob)
    requires Shaped(a) && Shaped(b)
    ensures Shaped(a + b)
  {
    if a != [] {
      var ab, n := a + b, NextUtf8(a, 0);
      assert forall i :: 0 <= i < |a| ==> ab[i] == a[i];
      assert Complete(ab, 0) && NextUtf8(ab, 0) == n;
      ShapedAppend(a[n..], b);
      assert ab[n..] == a[n..] + b;
    } else {
      assert a + b == b;
    }
  }

  /** From a well-shaped suffix, one step splits off a whole scalar. */
  lemma ShapedStep(t: Blob, at: nat)
    requires at < |t| && Shaped(t[at..])
    ensures ScalarAt(t, at) && Shaped(t[at..NextUtf8(t, at)]) && Shaped(t[NextUtf8(t, at)..])
  {
    NextShift(t, at);
    OneScalar(t[at..]);
    var n := NextUtf8(t[at..], 0);
    assert t[at..][..n] == t[at..NextUtf8(t, at)];
    assert t[at..][n..] == t[NextUtf8(t, at)..];
  }

  /** Well-shaped text begins with a whole scalar, whose later bytes are continuation bytes. */
  lemma ShapedHead(t: Blob) returns (n: nat)
    requires t != [] && Shaped(t)
    ensures 0 < n <= |t| && Shaped(t[..n]) && Shaped(t[n..])
    ensures (t[0] < 0x80 ==> n == 1) && forall i :: 0 < i < n ==> Continuation(t[i])
  {
    n := NextUtf8(t, 0);
    OneScalar(t);
  }

  /** Text whose last byte is below 0x80 can lose it. */
  lemma {:induction false} ShapedDropLast(t: Blob)
    requires t != [] && Shaped(t) && t[|t| - 1] < 0x80
    ensures Shaped(t[..|t| - 1])
  {
    hide Shaped;
    var n := ShapedHead(t);
    if n == |t| {
      assert n == 1 && t[..0] == [];
      EmptyIsShaped();
    } else {
      ShapedDropLast(t[n..]);
      ShapedAppend(t[..n], t[n..][..|t| - n - 1]);
      assert t[..|t| - 1] == t[..n] + t[n..][..|t| - n - 1];
    }
  }

  lemma ShapedByte(b: byte)
    requires b < 0x80
    ensures Shaped([b])
  {
    var t: Blob := [b];
    assert t[1..] == [];
  }

  // ------------------------------------------------------------- normalisation

  const LF: byte := 10
  const CR: byte := 13
  const Replacement: Blob := [0xEF, 0xBF, 0xBD]

  /** What the front of the input becomes, and how much of the input that is: a line end becomes LF, and a
      byte that begins no scalar becomes the replacement character. */
  function Piece(t: Blob): (p: (Blob, nat))
    requires t != []
    ensures 0 < p.1 <= |t|
  {
    if t[0] == CR then ([LF], if |t| > 1 && t[1] == LF then 2 else 1)
    else if t[0] < 0x80 then ([t[0]], 1)
    else if NextUtf8(t, 0) == 1 then (Replacement, 1)
    else (t[..NextUtf8(t, 0)], NextUtf8(t, 0))
  }

  function Clean(t: Blob): Blob {
    if t == [] then [] else Piece(t).0 + Clean(t[Piece(t).1..])
  }

  predicate BadByte(t: Blob)
    requires t != []
  {
    t[0] >= 0x80 && NextUtf8(t, 0) == 1
  }

  lemma ReplacementIsShaped()
    ensures Shaped(Replacement)
  {
    assert Replacement[3..] == [];
    assert Complete(Replacement, 0);
  }

  lemma PieceIsClean(t: Blob)
    requires t != []
    ensures Shaped(Piece(t).0) && CR !in Piece(t).0
  {
    ReplacementIsShaped();
    OneScalar(t);
    if t[0] < 0x80 {
      ShapedByte(t[0]);
      ShapedByte(LF);
    }
    assert NextUtf8(t, 0) > 1 ==> Complete(t, 0);
    hide Shaped;
  }

  lemma {:induction false} CleanIsShaped(t: Blob)
    ensures Shaped(Clean(t)) && CR !in Clean(t)
  {
    hide Shaped, Piece;
    if t == [] {
      EmptyIsShaped();
    } else {
      CleanIsShaped(t[Piece(t).1..]);
      PieceIsClean(t);
      ShapedAppend(Piece(t).0, Clean(t[Piece(t).1..]));
    }
  }

  lemma EmptyIsShaped()
    ensures Shaped([])
  {
  }

  /** Text that is already well shaped and has no carriage return is left as it is. */
  lemma {:induction false} CleanKeeps(t: Blob)
    requires Shaped(t) && CR !in t
    ensures Clean(t) == t
  {
    if t != [] {
      var n := NextUtf8(t, 0);
      CleanKeeps(t[n..]);
      assert t == t[..n] + t[n..];
      assert t[0] < 0x80 ==> n == 1 && t[..1] == [t[0]];
      assert t[0] == CR ==> CR in t;
    }
  }

  /** Normalising twice changes nothing more. */
  lemma CleanTwice(t: Blob)
    ensures Clean(Clean(t)) == Clean(t)
  {
    CleanIsShaped(t);
    CleanKeeps(Clean(t));
  }

  /** What cleaning does at the front of any input: whole scalars stay, each line end becomes one line feed, and a byte
      that begins no scalar becomes the replacement character U+FFFD. With `CleanAlong` this fixes it everywhere. */
  lemma CleanFront(t: Blob)
    ensures Clean([13, 10] + t) == [10] + Clean(t)
    ensures t == [] || t[0] != 10 ==> Clean([13] + t) == [10] + Clean(t)
    ensures forall b: byte :: !ScalarAt([b] + t, 0) ==> Clean([b] + t) == [0xEF, 0xBF, 0xBD] + Clean(t)
  {
    var pair: Blob := [13, 10] + t;
    assert pair[2..] == t;
    var single: Blob := [13] + t;
    assert single[1..] == t;
    forall b: byte | !ScalarAt([b] + t, 0)
      ensures Clean([b] + t) == [0xEF, 0xBF, 0xBD] + Clean(t)
    {
      var bad: Blob := [b] + t;
      assert bad[0] == b && bad[1..] == t;
    }
  }

  /** Clean text in front of any input is kept, and what follows is cleaned by itself. */
  lemma {:induction false} CleanAlong(a: Blob, t: Blob)
    requires Shaped(a) && CR !in a
    ensures Clean(a + t) == a + Clean(t)
  {
    hide Clean, Shaped, NextUtf8;
    if a == [] {
      assert a + t == t;
    } else {
      var n := FrontKept(a, t);
      CleanAlong(a[n..], t);
      assert a == a[..n] + a[n..];
    }
  }

  lemma FrontKept(a: Blob, t: Blob) returns (n: nat)
    requires a != [] && Shaped(a) && CR !in a
    ensures 0 < n <= |a| && Shaped(a[n..]) && Clean(a + t) == a[..n] + Clean(a[n..] + t)
  {
    n := NextUtf8(a, 0);
    var at := a + t;
    assert forall i :: 0 <= i < |a| ==> at[i] == a[i];
    assert Complete(at, 0) && NextUtf8(at, 0) == n;
    assert at[..n] == a[..n] && at[n..] == a[n..] + t;
    assert a[0] in a;
    assert a[0] < 0x80 ==> n == 1 && a[..1] == [a[0]];
  }

  lemma PieceShape(t: Blob)
    requires t != []
    ensures BadByte(t) ==> !Shaped(t)
    ensures !BadByte(t) ==> (Shaped(t) <==> Shaped(t[Piece(t).1..]))
  {
    var n := NextUtf8(t, 0);
    if t[0] == CR && |t| > 1 && t[1] == LF {
      assert t[1..][0] == LF && t[1..][1..] == t[2..];
    }
  }

  /** What has been written and what is still to be read. */
  ghost predicate Cleaning(body: Blob, i: nat, out: Blob, reject: bool) {
    i <= |body| && Clean(body) == out + Clean(body[i..]) && (reject ==> (Shaped(body) <==> Shaped(body[i..])))
  }

  lemma CleaningNext(body: Blob, i: nat, out: Blob, reject: bool)
    requires i < |body| && Cleaning(body, i, out, reject)
    ensures var p := Piece(body[i..]);
      if reject && BadByte(body[i..]) then !Shaped(body) else Cleaning(body, i + p.1, out + p.0, reject)
  {
    hide Shaped, Piece, Clean, BadByte;
    var rest := body[i..];
    var p := Piece(rest);
    PieceShape(rest);
    CleanStep(rest);
    SliceSlice(body, i, p.1);
    Reassociate(out, p.0, Clean(rest[p.1..]));
  }

  lemma CleanStep(t: Blob)
    requires t != []
    ensures Clean(t) == Piece(t).0 + Clean(t[Piece(t).1..])
  {
  }

  lemma SliceSlice(t: Blob, i: nat, n: nat)
    requires i + n <= |t|
    ensures t[i..][n..] == t[i + n..]
  {
  }

  /** `normalize_input`: under the reject policy exactly the ill-shaped inputs are refused. */
  method NormalizeInput(body: Blob, reject: bool) returns (out: Blob, valid: bool)
    ensures valid <==> !reject || Shaped(body)
    ensures out == if valid then Clean(body) else []
  {
    hide Shaped, Clean;
    out, valid := [], true;
    var i := 0;
    assert body[0..] == body && [] + Clean(body) == Clean(body);
    while i < |body|
      invariant Cleaning(body, i, out, reject)
      decreases |body| - i
    {
      hide Cleaning, ScalarAt, Complete, Continuation;
      CleaningNext(body, i, out, reject);
      NextShift(body, i);
      if body[i] == CR {
        if i + 1 < |body| && body[i + 1] == LF {
          i := i + 1;
        }
        out := out + [LF];
      } else if body[i] < 0x80 {
        out := out + [body[i]];
      } else {
        var end := NextUtf8(body, i);
        if end == i + 1 {
          if reject {
            return [], false;
          }
          out := out + Replacement;
        } else {
          out := out + body[i..end];
          i := end - 1;
        }
      }
      i := i + 1;
    }
    DoneCleaning(body, i, out, reject);
  }

  lemma DoneCleaning(body: Blob, i: nat, out: Blob, reject: bool)
    requires Cleaning(body, i, out, reject) && i >= |body|
    ensures out == Clean(body) && (reject ==> Shaped(body))
  {
    assert body[i..] == [] && out + [] == out;
  }
}
