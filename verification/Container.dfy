/** The sectioned container: its bytes, the layout a reader accepts, and the round trip. */
module Containers {
  import opened Collections
  import opened Sorting
  import opened Bytes

  datatype Section = Section(tag: nat, payload: Blob)

  /** Sections are an ordered map: a list by ascending tag. */
  datatype Container = Container(major: nat, minor: nat, flags: nat, sections: seq<Section>)

  const Magic: Blob := [82, 65, 71, 68, 66, 0, 0, 0]
  const FORMAT_MAJOR := 1
  const FORMAT_MINOR := 2
  const MAX_SECTIONS := 64
  const HEADER_SIZE := 28
  const ENTRY_SIZE := 20
  const TRAILER_SIZE := 4

  ghost predicate InTagOrder(s: seq<Section>) { forall i, j :: 0 <= i < j < |s| ==> s[i].tag < s[j].tag }

  /** A running checksum: a start value, one step per byte, and a final transformation to 32 bits. */
  datatype Crc = Crc(start: nat, step: (nat, byte) -> nat, finish: nat -> nat)

  ghost predicate CrcOk(k: Crc) { forall x :: k.finish(x) < 0x1_0000_0000 }

  function Update(k: Crc, value: nat, data: Blob): nat {
    if data == [] then value else k.step(Update(k, value, data[..|data| - 1]), data[|data| - 1])
  }

  function Checksum(k: Crc, data: Blob): nat { k.finish(Update(k, k.start, data)) }

  /** Updating with parts is updating with the whole. */
  lemma {:induction false} UpdateConcat(k: Crc, value: nat, a: Blob, b: Blob)
    ensures Update(k, value, a + b) == Update(k, Update(k, value, a), b)
  {
    if b == [] {
      assert a + b == a;
    } else {
      var n := |b| - 1;
      UpdateConcat(k, value, a, b[..n]);
      assert (a + b)[..|a + b| - 1] == a + b[..n];
    }
  }

  // ---------------------------------------------------------------------------- bytes

  function Header(c: Container): (h: Blob)
    ensures |h| == HEADER_SIZE
  {
    Magic + Put(c.major, 2) + Put(c.minor, 2) + Put(c.flags, 4) + Put(|c.sections|, 4) + Put(0, 8)
  }

  function Entry(tag: nat, offset: nat, length: nat): (e: Blob)
    ensures |e| == ENTRY_SIZE
  {
    Put(tag, 4) + Put(offset, 8) + Put(length, 8)
  }

  function Payloads(s: seq<Section>): Blob {
    if s == [] then [] else Payloads(s[..|s| - 1]) + s[|s| - 1].payload
  }

  function PayloadBegin(n: nat): nat { HEADER_SIZE + ENTRY_SIZE * n }

  /** Where the i-th payload starts. */
  function OffsetOf(s: seq<Section>, i: nat): nat
    requires i <= |s|
  {
    PayloadBegin(|s|) + |Payloads(s[..i])|
  }

  /** The table of the first `n` sections. */
  function Table(s: seq<Section>, n: nat): (t: Blob)
    requires n <= |s|
    ensures |t| == ENTRY_SIZE * n
  {
    if n == 0 then [] else Table(s, n - 1) + Entry(s[n - 1].tag, OffsetOf(s, n - 1), |s[n - 1].payload|)
  }

  function Body(c: Container): Blob { Header(c) + Table(c.sections, |c.sections|) + Payloads(c.sections) }

  function Serialized(k: Crc, c: Container): Blob { Body(c) + Put(Checksum(k, Body(c)), TRAILER_SIZE) }

  lemma PayloadsNext(s: seq<Section>, i: nat)
    requires i < |s|
    ensures Payloads(s[..i + 1]) == Payloads(s[..i]) + s[i].payload
    ensures OffsetOf(s, i + 1) == OffsetOf(s, i) + |s[i].payload|
  {
    assert s[..i + 1][..i] == s[..i];
  }

  function Prefix(c: Container): Blob { Header(c) + Table(c.sections, |c.sections|) }

  lemma PrefixNext(c: Container, i: nat)
    requires i < |c.sections|
    ensures var s := c.sections[i];
      Header(c) + Table(c.sections, i + 1) == Header(c) + Table(c.sections, i) + Entry(s.tag, OffsetOf(c.sections, i), |s.payload|)
  {
    hide Header, Entry, OffsetOf;
  }

  /** The header and the section table. */
  method WritePrefix(c: Container) returns (w: Blob)
    ensures w == Prefix(c)
  {
    hide Header, Table, Entry, OffsetOf;
    w := Header(c);
    var cursor := PayloadBegin(|c.sections|);
    FirstEntry(c);
    for i := 0 to |c.sections|
      invariant w == Header(c) + Table(c.sections, i) && cursor == OffsetOf(c.sections, i)
    {
      PayloadsNext(c.sections, i);
      PrefixNext(c, i);
      var s := c.sections[i];
      w := w + Entry(s.tag, cursor, |s.payload|);
      cursor := cursor + |s.payload|;
    }
  }

  lemma FirstEntry(c: Container)
    ensures Header(c) == Header(c) + Table(c.sections, 0) && OffsetOf(c.sections, 0) == PayloadBegin(|c.sections|)
  {
  }

  lemma BodyNext(c: Container, i: nat)
    requires i < |c.sections|
    ensures Prefix(c) + Payloads(c.sections[..i + 1]) == Prefix(c) + Payloads(c.sections[..i]) + c.sections[i].payload
  {
    hide Prefix;
    PayloadsNext(c.sections, i);
    Reassociate(Prefix(c), Payloads(c.sections[..i]), c.sections[i].payload);
  }

  lemma BodyEnds(c: Container)
    ensures Prefix(c) + Payloads(c.sections[..0]) == Prefix(c) && Prefix(c) + Payloads(c.sections[..|c.sections|]) == Body(c)
  {
    assert c.sections[..|c.sections|] == c.sections;
  }

  /** `serialize`. */
  method Serialize(k: Crc, c: Container) returns (w: Blob)
    ensures w == Serialized(k, c)
  {
    hide Checksum, Prefix, Payloads, Body;
    w := WritePrefix(c);
    BodyEnds(c);
    for i := 0 to |c.sections|
      invariant w == Prefix(c) + Payloads(c.sections[..i])
    {
      BodyNext(c, i);
      w := w + c.sections[i].payload;
    }
    w := w + Put(Checksum(k, w), TRAILER_SIZE);
  }

  /** `write_file` streams the same bytes, with a checksum kept on the way. */
  method WriteStreamed(k: Crc, c: Container) returns (file: Blob)
    ensures file == Serialized(k, c)
  {
    hide Checksum, Prefix, Payloads, Body;
    file := WritePrefix(c);
    BodyEnds(c);
    var running := Update(k, k.start, file);
    for i := 0 to |c.sections|
      invariant file == Prefix(c) + Payloads(c.sections[..i]) && running == Update(k, k.start, file)
    {
      hide Update;
      BodyNext(c, i);
      UpdateConcat(k, k.start, file, c.sections[i].payload);
      file := file + c.sections[i].payload;
      running := Update(k, running, c.sections[i].payload);
    }
    StreamedChecksum(k, file, running);
    file := file + Put(k.finish(running), TRAILER_SIZE);
  }

  lemma StreamedChecksum(k: Crc, data: Blob, running: nat)
    requires running == Update(k, k.start, data)
    ensures k.finish(running) == Checksum(k, data)
  {
  }

  // --------------------------------------------------------------------------- layout

  datatype Range = Range(tag: nat, offset: nat, length: nat)

  predicate OffsetLeq(a: Range, b: Range) { a.offset <= b.offset }

  /** Any sort by offset: `std::sort` may place ranges of equal offset in either order. */
  ghost predicate Sorts(arrange: seq<Range> -> seq<Range>) {
    forall s :: multiset(arrange(s)) == multiset(s) && SortedBy(arrange(s), OffsetLeq)
  }

  /** Every range lies within the payload area and none starts before the one in front of it ends. */
  predicate RangesOk(s: seq<Range>, begin: nat, end: nat) {
    if s == [] then true
    else
      var r, rest := s[|s| - 1], s[..|s| - 1];
      RangesOk(rest, begin, end) && begin <= r.offset && r.offset + r.length <= end &&
      r.offset >= if rest == [] then begin else rest[|rest| - 1].offset + rest[|rest| - 1].length
  }

  /** Within bounds and pairwise disjoint, in this order. */
  ghost predicate Disjoint(s: seq<Range>, begin: nat, end: nat) {
    (forall i :: 0 <= i < |s| ==> begin <= s[i].offset && s[i].offset + s[i].length <= end) &&
    (forall i, j :: 0 <= i < j < |s| ==> s[i].offset + s[i].length <= s[j].offset)
  }

  /** The neighbour-by-neighbour check is enough. */
  lemma {:induction false} RangesOkIff(s: seq<Range>, begin: nat, end: nat)
    ensures RangesOk(s, begin, end) <==> Disjoint(s, begin, end)
  {
    if s != [] {
      var n := |s| - 1;
      var rest := s[..n];
      RangesOkIff(rest, begin, end);
      if RangesOk(s, begin, end) {
        forall i | 0 <= i < n
          ensures s[i].offset + s[i].length <= s[n].offset
        {
          assert rest[i] == s[i] && rest[n - 1] == s[n - 1];
          assert i < n - 1 ==> rest[i].offset + rest[i].length <= rest[n - 1].offset;
        }
      }
      if Disjoint(s, begin, end) {
        assert Disjoint(rest, begin, end);
        assert n > 0 ==> rest[n - 1] == s[n - 1];
      }
    }
  }

  datatype Layout = Layout(major: nat, minor: nat, flags: nat, sections: seq<Range>)

  ghost predicate DistinctTags(s: seq<Range>) { forall i, j :: 0 <= i < j < |s| ==> s[i].tag != s[j].tag }

  /** The table of a serialized container, as ranges. */
  function RangesOf(s: seq<Section>, n: nat): (r: seq<Range>)
    requires n <= |s|
    ensures |r| == n && forall i :: 0 <= i < n ==> r[i] == Range(s[i].tag, OffsetOf(s, i), |s[i].payload|)
  {
    seq(n, i requires 0 <= i < n => Range(s[i].tag, OffsetOf(s, i), |s[i].payload|))
  }
}
