/** What a reader accepts of a container's bytes, and the round trip through them. */
module ContainerLayout {
  import opened Wrappers
  import opened Collections
  import opened Sorting
  import opened Bytes
  import opened Reading
  import opened Containers

  /** A container whose numbers fit the widths they are written in. */
  ghost predicate Writable(c: Container) {
    c.major == FORMAT_MAJOR && c.minor < 0x1_0000 && c.flags < 0x1_0000_0000 && |c.sections| <= MAX_SECTIONS &&
    InTagOrder(c.sections) && (forall i :: 0 <= i < |c.sections| ==> c.sections[i].tag < 0x1_0000_0000) &&
    OffsetOf(c.sections, |c.sections|) < 0x1_0000_0000_0000_0000
  }

  // ----------------------------------------------------------------------- the header

  datatype HeaderFields = HeaderFields(major: nat, minor: nat, flags: nat, count: nat)

  /** The numbers of the header, read one after the other, and the reserved field skipped. */
  function ReadFields(input: Blob): (r: Read<HeaderFields>)
    ensures |input| >= HEADER_SIZE - 8 ==> r.Got?
  {
    match ReadU(input, 2)
    case Short => Short
    case Got(major, r1) =>
      match ReadU(r1, 2)
      case Short => Short
      case Got(minor, r2) =>
        match ReadU(r2, 4)
        case Short => Short
        case Got(flags, r3) =>
          match ReadU(r3, 4)
          case Short => Short
          case Got(count, r4) =>
            match ReadU(r4, 8)
            case Short => Short
            case Got(_, r5) => Got(HeaderFields(major, minor, flags, count), r5)
  }

  lemma HeaderIs(c: Container, rest: Blob)
    requires Writable(c)
    ensures (Header(c) + rest)[..8] == Magic
    ensures ReadFields((Header(c) + rest)[8..]) == Got(HeaderFields(c.major, c.minor, c.flags, |c.sections|), rest)
  {
    Widths();
    hide Put, Take;
    var t4 := Put(0, 8) + rest;
    var t3 := Put(|c.sections|, 4) + t4;
    var t2 := Put(c.flags, 4) + t3;
    var t1 := Put(c.minor, 2) + t2;
    var t0 := Put(c.major, 2) + t1;
    ReadPut(c.major, 2, t1);
    ReadPut(c.minor, 2, t2);
    ReadPut(c.flags, 4, t3);
    ReadPut(|c.sections|, 4, t4);
    ReadPut(0, 8, rest);
    HeaderParts(c, rest);
  }

  lemma HeaderParts(c: Container, rest: Blob)
    ensures (Header(c) + rest)[..8] == Magic
    ensures (Header(c) + rest)[8..] ==
      Put(c.major, 2) + (Put(c.minor, 2) + (Put(c.flags, 4) + (Put(|c.sections|, 4) + (Put(0, 8) + rest))))
  {
    hide Put;
    var fields := Put(c.major, 2) + (Put(c.minor, 2) + (Put(c.flags, 4) + (Put(|c.sections|, 4) + (Put(0, 8) + rest))));
    assert Header(c) + rest == Magic + fields;
  }

  /** A serialized container begins with its header, and carries its checksum at the end. */
  lemma Envelope(k: Crc, c: Container)
    requires CrcOk(k)
    ensures var bytes := Serialized(k, c);
      |bytes| == OffsetOf(c.sections, |c.sections|) + TRAILER_SIZE && |Body(c)| == OffsetOf(c.sections, |c.sections|) &&
      bytes[..|bytes| - TRAILER_SIZE] == Body(c) && Take(bytes[|bytes| - TRAILER_SIZE..]) == Checksum(k, Body(c))
  {
    Widths();
    Exact(Checksum(k, Body(c)), 4);
    assert c.sections[..|c.sections|] == c.sections;
    hide Header, Table, Payloads, Checksum;
  }

  lemma StartsWithHeader(k: Crc, c: Container)
    ensures |Serialized(k, c)| >= HEADER_SIZE && Serialized(k, c)[..HEADER_SIZE] == Header(c)
  {
    hide Header, Table, Payloads, Checksum;
  }

  // ------------------------------------------------------------------------ the table

  lemma {:induction false} EntryIn(s: seq<Section>, n: nat, i: nat)
    requires i < n <= |s|
    ensures Table(s, n)[ENTRY_SIZE * i..ENTRY_SIZE * (i + 1)] == Entry(s[i].tag, OffsetOf(s, i), |s[i].payload|)
  {
    hide Entry, OffsetOf;
    if i < n - 1 {
      EntryIn(s, n - 1, i);
      var shorter := Table(s, n - 1);
      assert Table(s, n)[..|shorter|] == shorter;
      assert Table(s, n)[ENTRY_SIZE * i..ENTRY_SIZE * (i + 1)] == shorter[ENTRY_SIZE * i..ENTRY_SIZE * (i + 1)];
    }
  }

  lemma EntryAt(k: Crc, c: Container, i: nat)
    requires i < |c.sections|
    ensures var at := HEADER_SIZE + ENTRY_SIZE * i;
      at + ENTRY_SIZE <= |Serialized(k, c)| &&
      Serialized(k, c)[at..at + ENTRY_SIZE] == Entry(c.sections[i].tag, OffsetOf(c.sections, i), |c.sections[i].payload|)
  {
    EntryIn(c.sections, |c.sections|, i);
    hide Entry, OffsetOf, Header, Payloads, Checksum;
    var table := Table(c.sections, |c.sections|);
    hide Table;
    InMiddle(Header(c), table, Payloads(c.sections) + Put(Checksum(k, Body(c)), TRAILER_SIZE), ENTRY_SIZE * i, ENTRY_SIZE * (i + 1));
    Reassociate(Header(c) + table, Payloads(c.sections), Put(Checksum(k, Body(c)), TRAILER_SIZE));
  }

  lemma InMiddle(a: Blob, b: Blob, c: Blob, lo: nat, hi: nat)
    requires lo <= hi <= |b|
    ensures |a| + hi <= |a + b + c| && (a + b + c)[|a| + lo..|a| + hi] == b[lo..hi]
  {
  }

  /** One row of the table. */
  function ReadEntry(input: Blob): (r: Read<Range>)
    ensures r.Got? <==> |input| >= ENTRY_SIZE
    ensures r.Got? ==> r.rest == input[ENTRY_SIZE..]
  {
    match ReadU(input, 4)
    case Short => Short
    case Got(tag, r1) =>
      match ReadU(r1, 8)
      case Short => Short
      case Got(offset, r2) =>
        match ReadU(r2, 8)
        case Short => Short
        case Got(length, r3) =>
          assert r3 == input[ENTRY_SIZE..];
          Got(Range(tag, offset, length), r3)
  }

  lemma ReadEntryBack(tag: nat, offset: nat, length: nat, rest: Blob)
    requires tag < 0x1_0000_0000 && offset < 0x1_0000_0000_0000_0000 && length < 0x1_0000_0000_0000_0000
    ensures ReadEntry(Entry(tag, offset, length) + rest) == Got(Range(tag, offset, length), rest)
  {
    Widths();
    hide Put, Take;
    var t1 := Put(offset, 8) + Put(length, 8) + rest;
    var t2 := Put(length, 8) + rest;
    assert Entry(tag, offset, length) + rest == Put(tag, 4) + t1;
    assert t1 == Put(offset, 8) + t2;
    ReadPut(tag, 4, t1);
    ReadPut(offset, 8, t2);
    ReadPut(length, 8, rest);
  }

  lemma {:induction false} OffsetsGrow(s: seq<Section>, i: nat, j: nat)
    requires i < j <= |s|
    ensures OffsetOf(s, i) + |s[i].payload| <= OffsetOf(s, j)
  {
    hide OffsetOf;
    PayloadsNext(s, j - 1);
    if i < j - 1 {
      OffsetsGrow(s, i, j - 1);
    }
  }

  /** Reading on in the table of a serialized container gives its sections one by one. */
  lemma ReadsSection(k: Crc, c: Container, i: nat)
    requires Writable(c) && i < |c.sections|
    ensures var bytes, at := Serialized(k, c), HEADER_SIZE + ENTRY_SIZE * i;
      at + ENTRY_SIZE <= |bytes| &&
      ReadEntry(bytes[at..]) == Got(RangesOf(c.sections, |c.sections|)[i], bytes[at + ENTRY_SIZE..])
  {
    hide Serialized, Entry, OffsetOf, InTagOrder;
    var bytes, at := Serialized(k, c), HEADER_SIZE + ENTRY_SIZE * i;
    var s := c.sections[i];
    EntryAt(k, c, i);
    OffsetsGrow(c.sections, i, |c.sections|);
    ReadEntryBack(s.tag, OffsetOf(c.sections, i), |s.payload|, bytes[at + ENTRY_SIZE..]);
    assert bytes[at..] == bytes[at..at + ENTRY_SIZE] + bytes[at + ENTRY_SIZE..];
  }

  /** Rows read in order; a repeated tag is refused. */
  function TableFrom(input: Blob, count: nat, sections: seq<Range>): Result<seq<Range>>
    decreases count
  {
    if count == 0 then Ok(sections)
    else
      match ReadEntry(input)
      case Short => Err(CorruptIndex)
      case Got(row, rest) =>
        if HasTag(sections, row.tag) then Err(CorruptIndex) else TableFrom(rest, count - 1, sections + [row])
  }

  /** The rows of a table are read in order; a repeated tag is refused. */
  method ReadTable(bytes: Blob, count: nat, ghost k: Crc, ghost c: Container) returns (r: Result<seq<Range>>)
    requires |bytes| >= HEADER_SIZE + ENTRY_SIZE * count
    ensures r.Ok? ==> |r.value| == count && DistinctTags(r.value)
    ensures Writable(c) && bytes == Serialized(k, c) && count == |c.sections| ==> r == Ok(RangesOf(c.sections, |c.sections|))
    ensures r == TableFrom(bytes[HEADER_SIZE..], count, [])
  {
    hide Writable, Serialized, ReadEntry, OffsetOf;
    var rest := bytes[HEADER_SIZE..];
    var sections: seq<Range> := [];
    var tags: set<nat> := {};
    ghost var good := Writable(c) && bytes == Serialized(k, c) && count == |c.sections|;
    while |sections| < count
      invariant |sections| <= count && TableFrom(bytes[HEADER_SIZE..], count, []) == TableFrom(rest, count - |sections|, sections)
      invariant DistinctTags(sections) && (forall t :: t in tags <==> HasTag(sections, t))
      invariant |bytes| >= HEADER_SIZE + ENTRY_SIZE * |sections| && rest == bytes[HEADER_SIZE + ENTRY_SIZE * |sections|..]
      invariant good ==> sections == RangesOf(c.sections, |c.sections|)[..|sections|]
    {
      ghost var i := |sections|;
      if good {
        ReadsSection(k, c, i);
        NewTag(c, i);
      }
      var row := ReadEntry(rest);
      if row.Short? {
        return Err(CorruptIndex);
      }
      if row.value.tag in tags {
        return Err(CorruptIndex);
      }
      HasTagNext(sections, row.value);
      tags := tags + {row.value.tag};
      sections := sections + [row.value];
      rest := row.rest;
    }
    AllRanges(c.sections);
    return Ok(sections);
  }

  lemma AllRanges(s: seq<Section>)
    ensures RangesOf(s, |s|)[..|s|] == RangesOf(s, |s|)
  {
  }

  predicate HasTag(s: seq<Range>, t: nat) { exists i :: 0 <= i < |s| && s[i].tag == t }

  lemma HasTagNext(s: seq<Range>, r: Range)
    ensures forall t :: HasTag(s + [r], t) <==> HasTag(s, t) || t == r.tag
  {
    var all := s + [r];
    forall t
      ensures HasTag(all, t) <==> HasTag(s, t) || t == r.tag
    {
      if HasTag(s, t) {
        var i :| 0 <= i < |s| && s[i].tag == t;
        assert all[i].tag == t;
      }
      assert all[|s|].tag == r.tag;
    }
  }

  lemma NewTag(c: Container, i: nat)
    requires Writable(c) && i < |c.sections|
    ensures var all := RangesOf(c.sections, |c.sections|); !HasTag(all[..i], all[i].tag) && all[..i + 1] == all[..i] + [all[i]]
  {
    var all := RangesOf(c.sections, |c.sections|);
    forall j | 0 <= j < i
      ensures all[..i][j].tag != all[i].tag
    {
      assert c.sections[j].tag < c.sections[i].tag;
    }
  }

  // ----------------------------------------------------------------------- validation

  /** The check loop: bounds, and a running end that no section may start before. */
  method CheckRanges(s: seq<Range>, begin: nat, end: nat) returns (ok: bool)
    ensures ok <==> RangesOk(s, begin, end)
  {
    var previousEnd := begin;
    for i := 0 to |s|
      invariant RangesOk(s[..i], begin, end) && previousEnd == if i == 0 then begin else s[i - 1].offset + s[i - 1].length
    {
      assert s[..i + 1][..i] == s[..i];
      var r := s[i];
      if r.offset < begin || r.offset > end || r.length > end - r.offset || r.offset < previousEnd {
        NotOkPrefix(s, i + 1, begin, end);
        return false;
      }
      previousEnd := r.offset + r.length;
    }
    assert s[..|s|] == s;
    return true;
  }

  lemma {:induction false} NotOkPrefix(s: seq<Range>, n: nat, begin: nat, end: nat)
    requires n <= |s| && !RangesOk(s[..n], begin, end)
    ensures !RangesOk(s, begin, end)
  {
    if n < |s| {
      assert s[..|s| - 1][..n] == s[..n];
      NotOkPrefix(s[..|s| - 1], n, begin, end);
    } else {
      assert s[..n] == s;
    }
  }

  /** What an accepted layout promises: the format, the checksum, distinct tags, and sections that lie within
      the payload area without overlapping. */
  ghost predicate Sound(k: Crc, bytes: Blob, l: Layout) {
    |bytes| >= HEADER_SIZE + TRAILER_SIZE && bytes[..8] == Magic && l.major == FORMAT_MAJOR && DistinctTags(l.sections) &&
    Take(bytes[|bytes| - TRAILER_SIZE..]) == Checksum(k, bytes[..|bytes| - TRAILER_SIZE]) &&
    Disjoint(l.sections, PayloadBegin(|l.sections|), |bytes| - TRAILER_SIZE)
  }

  /** The bytes are those of this container. */
  ghost predicate Holds(k: Crc, bytes: Blob, c: Container) { Writable(c) && CrcOk(k) && bytes == Serialized(k, c) }

  ghost predicate Arranged(arrange: seq<Range> -> seq<Range>, c: Container) {
    RangesOk(arrange(RangesOf(c.sections, |c.sections|)), PayloadBegin(|c.sections|), OffsetOf(c.sections, |c.sections|))
  }

  /** What validating a container's own bytes gives. */
  ghost function Expected(arrange: seq<Range> -> seq<Range>, c: Container): Result<Layout> {
    if Arranged(arrange, c) then Ok(Layout(c.major, c.minor, c.flags, arrange(RangesOf(c.sections, |c.sections|))))
    else Err(CorruptIndex)
  }

  /** What the layout checks make of any bytes: length, checksum, magic number, version, table, and ranges in the order the
      sort gives. */
  ghost function LayoutOf(k: Crc, arrange: seq<Range> -> seq<Range>, bytes: Blob): Result<Layout> {
    if |bytes| < HEADER_SIZE + TRAILER_SIZE then Err(CorruptIndex)
    else
      var end := |bytes| - TRAILER_SIZE;
      if Checksum(k, bytes[..end]) != Take(bytes[end..]) || bytes[..8] != Magic then Err(CorruptIndex)
      else
        var h := ReadFields(bytes[8..]).value;
        if h.major != FORMAT_MAJOR || h.count > MAX_SECTIONS || h.count > (end - HEADER_SIZE) / ENTRY_SIZE then Err(CorruptIndex)
        else
          match TableFrom(bytes[HEADER_SIZE..], h.count, [])
          case Err(e) => Err(CorruptIndex)
          case Ok(table) =>
            if RangesOk(arrange(table), PayloadBegin(h.count), end) then Ok(Layout(h.major, h.minor, h.flags, arrange(table)))
            else Err(CorruptIndex)
  }

  /** `validate_container_layout`, for whatever sort. */
  method ValidateLayout(k: Crc, arrange: seq<Range> -> seq<Range>, bytes: Blob, ghost c: Container) returns (r: Result<Layout>)
    requires Sorts(arrange)
    ensures r.Ok? ==> Sound(k, bytes, r.value)
    ensures Holds(k, bytes, c) ==> r == Expected(arrange, c)
    ensures r == LayoutOf(k, arrange, bytes)
  {
    hide TableFrom, Sorts, RangesOk, Checksum, OffsetOf, Serialized, Header, RangesOf, Disjoint, DistinctTags, Body, Take, ReadFields, CrcOk;
    if Holds(k, bytes, c) {
      Envelope(k, c);
      StartsWithHeader(k, c);
      HeaderIs(c, bytes[HEADER_SIZE..]);
      WholeIs(k, c, bytes);
    }
    if |bytes| < HEADER_SIZE + TRAILER_SIZE {
      return Err(CorruptIndex);
    }
    var body := bytes[..|bytes| - TRAILER_SIZE];
    if Checksum(k, body) != Take(bytes[|bytes| - TRAILER_SIZE..]) {
      return Err(CorruptIndex);
    }
    if bytes[..8] != Magic {
      return Err(CorruptIndex);
    }
    var header := ReadFields(bytes[8..]).value;
    if header.major != FORMAT_MAJOR {
      return Err(CorruptIndex);
    }
    if header.count > MAX_SECTIONS || header.count > (|bytes| - HEADER_SIZE - TRAILER_SIZE) / ENTRY_SIZE {
      return Err(CorruptIndex);
    }
    var table := ReadTable(bytes, header.count, k, c);
    if table.Err? {
      return Err(CorruptIndex);
    }
    var sections := arrange(table.value);
    ArrangedTags(arrange, table.value);
    var ok := CheckRanges(sections, PayloadBegin(header.count), |bytes| - TRAILER_SIZE);
    if !ok {
      return Err(CorruptIndex);
    }
    RangesOkIff(sections, PayloadBegin(header.count), |bytes| - TRAILER_SIZE);
    return Ok(Layout(header.major, header.minor, header.flags, sections));
  }

  lemma WholeIs(k: Crc, c: Container, bytes: Blob)
    requires Writable(c) && CrcOk(k) && bytes == Serialized(k, c)
    ensures |bytes| >= HEADER_SIZE && Header(c) + bytes[HEADER_SIZE..] == bytes
    ensures |bytes| == OffsetOf(c.sections, |c.sections|) + TRAILER_SIZE
    ensures |c.sections| <= (|bytes| - HEADER_SIZE - TRAILER_SIZE) / ENTRY_SIZE
  {
    hide Serialized, Header;
    Envelope(k, c);
    StartsWithHeader(k, c);
    assert bytes == bytes[..HEADER_SIZE] + bytes[HEADER_SIZE..];
  }

  lemma ArrangedTags(arrange: seq<Range> -> seq<Range>, s: seq<Range>)
    requires Sorts(arrange) && DistinctTags(s)
    ensures DistinctTags(arrange(s)) && |arrange(s)| == |s| && forall r :: r in s <==> r in arrange(s)
  {
    var a := arrange(s);
    assert multiset(a) == multiset(s);
    SameElements(s, a);
    assert |multiset(a)| == |multiset(s)|;
    assert Distinct(s);
    MultisetDistinct(s, a);
    TagsOnce(s);
    forall i, j | 0 <= i < j < |a|
      ensures a[i].tag != a[j].tag
    {
      assert a[i] in s && a[j] in s;
    }
  }

  lemma TagsOnce(s: seq<Range>)
    requires DistinctTags(s)
    ensures forall x, y :: x in s && y in s && x.tag == y.tag ==> x == y
  {
  }

  // ------------------------------------------------------- empty sections and the sort

  /** No empty section is followed by one that is not. */
  ghost predicate EmptyLast(s: seq<Section>) {
    forall i, j :: 0 <= i < j < |s| && s[i].payload == [] ==> s[j].payload == []
  }

  lemma RangesDisjoint(s: seq<Section>)
    ensures Disjoint(RangesOf(s, |s|), PayloadBegin(|s|), OffsetOf(s, |s|))
  {
    forall i | 0 <= i < |s|
      ensures PayloadBegin(|s|) <= OffsetOf(s, i) && OffsetOf(s, i) + |s[i].payload| <= OffsetOf(s, |s|)
    {
      OffsetsGrow(s, i, |s|);
    }
    forall i, j | 0 <= i < j < |s|
      ensures OffsetOf(s, i) + |s[i].payload| <= OffsetOf(s, j)
    {
      OffsetsGrow(s, i, j);
    }
  }

  /** Two ranges of a serialized container that a sort has put in this order do not overlap. */
  lemma PairFits(s: seq<Section>, x: Range, y: Range)
    requires EmptyLast(s) && x in RangesOf(s, |s|) && y in RangesOf(s, |s|) && x != y && x.offset <= y.offset
    ensures x.offset + x.length <= y.offset
  {
    var all := RangesOf(s, |s|);
    var p :| 0 <= p < |s| && all[p] == x;
    var q :| 0 <= q < |s| && all[q] == y;
    hide OffsetOf;
    if p < q {
      OffsetsGrow(s, p, q);
    } else {
      OffsetsGrow(s, q, p);
      assert s[q].payload == [];
    }
  }

  /** With empty sections only at the end, every sort gives an order the check accepts. */
  lemma AnySortPasses(arrange: seq<Range> -> seq<Range>, c: Container)
    requires Sorts(arrange) && InTagOrder(c.sections) && EmptyLast(c.sections)
    ensures Arranged(arrange, c)
  {
    var all := RangesOf(c.sections, |c.sections|);
    var a := arrange(all);
    assert DistinctTags(all);
    ArrangedTags(arrange, all);
    assert SortedBy(a, OffsetLeq);
    RangesDisjoint(c.sections);
    hide OffsetOf, EmptyLast, Sorts, RangesOf;
    forall i, j | 0 <= i < j < |a|
      ensures a[i].offset + a[i].length <= a[j].offset
    {
      assert a[i] in all && a[j] in all && OffsetLeq(a[i], a[j]);
      PairFits(c.sections, a[i], a[j]);
    }
    forall i | 0 <= i < |a|
      ensures PayloadBegin(|c.sections|) <= a[i].offset && a[i].offset + a[i].length <= OffsetOf(c.sections, |c.sections|)
    {
      assert a[i] in all;
    }
    RangesOkIff(a, PayloadBegin(|c.sections|), OffsetOf(c.sections, |c.sections|));
  }

  /** The table's own order, which a stable sort keeps, always passes. */
  lemma OwnOrderPasses(c: Container)
    ensures RangesOk(RangesOf(c.sections, |c.sections|), PayloadBegin(|c.sections|), OffsetOf(c.sections, |c.sections|))
  {
    RangesDisjoint(c.sections);
    RangesOkIff(RangesOf(c.sections, |c.sections|), PayloadBegin(|c.sections|), OffsetOf(c.sections, |c.sections|));
  }

  /** An empty section directly before one that is not, whenever there is an empty one anywhere before one. */
  lemma {:induction false} EmptyBefore(s: seq<Section>, i: nat, j: nat) returns (k: nat)
    requires i < j < |s| && s[i].payload == [] && s[j].payload != []
    ensures i <= k < j && s[k].payload == [] && s[k + 1].payload != []
    decreases j - i
  {
    if s[i + 1].payload != [] {
      k := i;
    } else {
      k := EmptyBefore(s, i + 1, j);
    }
  }

  /** Exchanging the two gives another order by offset. */
  function Swapped(s: seq<Range>, k: nat): seq<Range>
    requires k + 1 < |s|
  {
    s[k := s[k + 1]][k + 1 := s[k]]
  }

  /** With an empty section before one that is not, some order by offset is rejected as overlapping. */
  lemma SomeSortFails(c: Container) returns (order: seq<Range>)
    requires !EmptyLast(c.sections)
    ensures multiset(order) == multiset(RangesOf(c.sections, |c.sections|)) && SortedBy(order, OffsetLeq)
    ensures !RangesOk(order, PayloadBegin(|c.sections|), OffsetOf(c.sections, |c.sections|))
  {
    var s := c.sections;
    var i, j :| 0 <= i < j < |s| && s[i].payload == [] && s[j].payload != [];
    var k := EmptyBefore(s, i, j);
    var all := RangesOf(s, |s|);
    order := Swapped(all, k);
    PayloadsNext(s, k);
    RangesDisjoint(s);
    hide OffsetOf, RangesOf, Swapped, Disjoint;
    SwapMultiset(all, k);
    SwappedSorted(all, k, PayloadBegin(|s|), OffsetOf(s, |s|));
    RangesOkIff(order, PayloadBegin(|s|), OffsetOf(s, |s|));
  }

  lemma SwappedSorted(s: seq<Range>, k: nat, begin: nat, end: nat)
    requires k + 1 < |s| && Disjoint(s, begin, end)
    requires s[k].length == 0 && s[k + 1].length > 0 && s[k].offset == s[k + 1].offset
    ensures SortedBy(Swapped(s, k), OffsetLeq) && !Disjoint(Swapped(s, k), begin, end)
  {
    var t := Swapped(s, k);
    forall a, b | 0 <= a < b < |t|
      ensures OffsetLeq(t[a], t[b])
    {
      assert t[a].offset == s[a].offset && t[b].offset == s[b].offset;
    }
    assert t[k].offset + t[k].length > t[k + 1].offset;
  }

  lemma SwapMultiset(s: seq<Range>, k: nat)
    requires k + 1 < |s|
    ensures multiset(Swapped(s, k)) == multiset(s)
  {
    assert s == s[..k] + [s[k]] + [s[k + 1]] + s[k + 2..];
    assert Swapped(s, k) == s[..k] + [s[k + 1]] + [s[k]] + s[k + 2..];
  }

  // -------------------------------------------------------------------------- parsing

  /** Assigning a section in the ordered map. */
  function PutSection(s: seq<Section>, x: Section): seq<Section> {
    if s == [] || x.tag < s[0].tag then [x] + s
    else if s[0].tag == x.tag then [x] + s[1..]
    else [s[0]] + PutSection(s[1..], x)
  }

  ghost predicate NewIn(s: seq<Section>, tag: nat) { forall i :: 0 <= i < |s| ==> s[i].tag != tag }

  lemma {:induction false} PutSectionIs(s: seq<Section>, x: Section)
    requires InTagOrder(s) && NewIn(s, x.tag)
    ensures InTagOrder(PutSection(s, x)) && forall y :: y in PutSection(s, x) <==> y in s || y == x
  {
    if s != [] && x.tag > s[0].tag {
      var rest := s[1..];
      PutSectionIs(rest, x);
      var put := PutSection(rest, x);
      assert s == [s[0]] + rest;
      forall i | 0 <= i < |put|
        ensures s[0].tag < put[i].tag
      {
        assert put[i] in put;
        if put[i] != x {
          var j :| 0 <= j < |rest| && rest[j] == put[i];
        }
      }
    }
  }

  /** Ordered lists with the same sections are the same. */
  lemma {:induction false} SameSections(a: seq<Section>, b: seq<Section>)
    requires InTagOrder(a) && InTagOrder(b) && forall x :: x in a <==> x in b
    ensures a == b
  {
    assert b != [] ==> b[0] in a;
    if a != [] {
      assert a[0] in b && b[0] in a;
      var i :| 0 <= i < |a| && a[i] == b[0];
      var j :| 0 <= j < |b| && b[j] == a[0];
      assert a[0] == b[0];
      forall x
        ensures x in a[1..] <==> x in b[1..]
      {
        assert x in a[1..] ==> x in a && x != a[0];
        assert x in b[1..] ==> x in b && x != b[0];
        assert x in a && x != a[0] ==> x in a[1..];
        assert x in b && x != b[0] ==> x in b[1..];
      }
      SameSections(a[1..], b[1..]);
    }
  }

  /** The section a range cuts out of the bytes. */
  function Cut(bytes: Blob, r: Range): Section
    requires r.offset + r.length <= |bytes|
  {
    Section(r.tag, bytes[r.offset..r.offset + r.length])
  }

  ghost predicate CutIs(bytes: Blob, r: Range, x: Section) { r.offset + r.length <= |bytes| && Cut(bytes, r) == x }

  lemma {:induction false} PayloadIn(s: seq<Section>, i: nat, n: nat)
    requires i < n <= |s|
    ensures var at := |Payloads(s[..i])|;
      at + |s[i].payload| <= |Payloads(s[..n])| && Payloads(s[..n])[at..at + |s[i].payload|] == s[i].payload
  {
    PayloadsNext(s, n - 1);
    if i < n - 1 {
      PayloadIn(s, i, n - 1);
    }
    hide Payloads;
  }

  /** A serialized container's ranges cut out its sections. */
  lemma CutsOut(k: Crc, c: Container, i: nat)
    requires i < |c.sections|
    ensures var r := RangesOf(c.sections, |c.sections|)[i];
      r.offset + r.length <= |Serialized(k, c)| && Cut(Serialized(k, c), r) == c.sections[i]
  {
    hide Serialized, Prefix, Payloads, Checksum, Body;
    PayloadIn(c.sections, i, |c.sections|);
    assert c.sections[..|c.sections|] == c.sections;
    SerializedParts(k, c);
    PrefixSize(c);
    var at := |Payloads(c.sections[..i])|;
    InMiddle(Prefix(c), Payloads(c.sections), Put(Checksum(k, Body(c)), TRAILER_SIZE), at, at + |c.sections[i].payload|);
  }

  lemma SerializedParts(k: Crc, c: Container)
    ensures Serialized(k, c) == Prefix(c) + Payloads(c.sections) + Put(Checksum(k, Body(c)), TRAILER_SIZE)
  {
  }

  lemma PrefixSize(c: Container)
    ensures |Prefix(c)| == PayloadBegin(|c.sections|)
  {
    hide Header, Table;
  }

  lemma CutsAll(k: Crc, c: Container, ranges: seq<Range>)
    requires forall r :: r in ranges <==> r in RangesOf(c.sections, |c.sections|)
    ensures forall i :: 0 <= i < |ranges| ==>
      ranges[i].offset + ranges[i].length <= |Serialized(k, c)| && Cut(Serialized(k, c), ranges[i]) in c.sections
    ensures forall x :: x in c.sections ==> exists i :: 0 <= i < |ranges| && CutIs(Serialized(k, c), ranges[i], x)
  {
    hide Serialized, OffsetOf, Cut;
    var all := RangesOf(c.sections, |c.sections|);
    forall i | 0 <= i < |ranges|
      ensures ranges[i].offset + ranges[i].length <= |Serialized(k, c)| && Cut(Serialized(k, c), ranges[i]) in c.sections
    {
      assert ranges[i] in ranges;
      var j :| 0 <= j < |all| && all[j] == ranges[i];
      CutsOut(k, c, j);
    }
    forall x | x in c.sections
      ensures exists i :: 0 <= i < |ranges| && CutIs(Serialized(k, c), ranges[i], x)
    {
      var j :| 0 <= j < |c.sections| && c.sections[j] == x;
      CutsOut(k, c, j);
      assert all[j] in ranges;
      var i :| 0 <= i < |ranges| && ranges[i] == all[j];
    }
  }

  /** The sections of the first ranges, assigned one after the other. */
  ghost predicate CutSections(bytes: Blob, ranges: seq<Range>, n: nat, s: seq<Section>)
    requires n <= |ranges| && forall i :: 0 <= i < |ranges| ==> ranges[i].offset + ranges[i].length <= |bytes|
  {
    InTagOrder(s) && (forall i :: 0 <= i < n ==> Cut(bytes, ranges[i]) in s) &&
    (forall x :: x in s ==> exists i :: 0 <= i < n && x == Cut(bytes, ranges[i]))
  }

  lemma CutNext(bytes: Blob, ranges: seq<Range>, n: nat, s: seq<Section>)
    requires n < |ranges| && DistinctTags(ranges)
    requires (forall i :: 0 <= i < |ranges| ==> ranges[i].offset + ranges[i].length <= |bytes|) && CutSections(bytes, ranges, n, s)
    ensures CutSections(bytes, ranges, n + 1, PutSection(s, Cut(bytes, ranges[n])))
  {
    var x := Cut(bytes, ranges[n]);
    forall i | 0 <= i < |s|
      ensures s[i].tag != x.tag
    {
      assert s[i] in s;
      var j :| 0 <= j < n && s[i] == Cut(bytes, ranges[j]);
    }
    PutSectionIs(s, x);
    hide PutSection, InTagOrder;
    var next := PutSection(s, x);
    forall y | y in next
      ensures exists i :: 0 <= i < n + 1 && y == Cut(bytes, ranges[i])
    {
      if y in s {
        var i :| 0 <= i < n && y == Cut(bytes, ranges[i]);
      }
    }
  }

  /** The sections the first `n` ranges cut out, by tag. */
  function SectionsFrom(bytes: Blob, ranges: seq<Range>, n: nat): seq<Section>
    requires n <= |ranges|
  {
    if n == 0 then []
    else
      var r := ranges[n - 1];
      PutSection(SectionsFrom(bytes, ranges, n - 1), Section(r.tag, if r.offset + r.length <= |bytes| then Cut(bytes, r).payload else []))
  }

  /** What any bytes are parsed as. */
  ghost function ContainerIn(k: Crc, arrange: seq<Range> -> seq<Range>, bytes: Blob): Result<Container> {
    match LayoutOf(k, arrange, bytes)
    case Err(e) => Err(e)
    case Ok(l) => Ok(Container(l.major, l.minor, l.flags, SectionsFrom(bytes, l.sections, |l.sections|)))
  }

  /** Whatever is parsed has a good layout: format, checksum, distinct tags, ranges that do not overlap. */
  lemma ParsedIsSound(k: Crc, arrange: seq<Range> -> seq<Range>, bytes: Blob)
    requires Sorts(arrange) && ContainerIn(k, arrange, bytes).Ok?
    ensures LayoutOf(k, arrange, bytes).Ok? && Sound(k, bytes, LayoutOf(k, arrange, bytes).value)
  {
    hide Sorts, RangesOk, Checksum, Take, ReadFields, Disjoint;
    var h := ReadFields(bytes[8..]).value;
    var table := TableFrom(bytes[HEADER_SIZE..], h.count, []).value;
    TableIs(bytes[HEADER_SIZE..], h.count, []);
    hide TableFrom;
    ArrangedTags(arrange, table);
    RangesOkIff(arrange(table), PayloadBegin(h.count), |bytes| - TRAILER_SIZE);
  }

  lemma {:induction false} TableIs(input: Blob, count: nat, sections: seq<Range>)
    requires DistinctTags(sections) && TableFrom(input, count, sections).Ok?
    ensures var table := TableFrom(input, count, sections).value; DistinctTags(table) && |table| == |sections| + count
    decreases count
  {
    if count > 0 {
      var row := ReadEntry(input);
      hide ReadEntry;
      assert forall i :: 0 <= i < |sections| ==> sections[i].tag != row.value.tag;
      TableIs(row.rest, count - 1, sections + [row.value]);
    }
  }

  /** `parse` of what `serialize` wrote gives the container back, for every sort, when no empty section precedes
      one that is not; and whenever the validation accepts the order the sort gave. */
  method Parse(k: Crc, arrange: seq<Range> -> seq<Range>, bytes: Blob, ghost c: Container) returns (r: Result<Container>)
    requires Sorts(arrange)
    ensures r.Ok? ==> r.value.major == FORMAT_MAJOR && InTagOrder(r.value.sections)
    ensures Holds(k, bytes, c) ==> r == if Arranged(arrange, c) then Ok(c) else Err(CorruptIndex)
    ensures Holds(k, bytes, c) && EmptyLast(c.sections) ==> r == Ok(c)
    ensures r == ContainerIn(k, arrange, bytes)
  {
    hide LayoutOf, Sorts, Arranged, EmptyLast, Serialized, OffsetOf, Checksum, Holds, RangesOf, InTagOrder, DistinctTags, Sound,
         SectionsFrom, PutSection, CutSections;
    if Holds(k, bytes, c) && EmptyLast(c.sections) {
      HoldsInOrder(k, bytes, c);
      AnySortPasses(arrange, c);
    }
    var layout := ValidateLayout(k, arrange, bytes, c);
    if layout.Err? {
      return Err(layout.error);
    }
    var ranges := layout.value.sections;
    var sections: seq<Section> := [];
    SoundRanges(k, bytes, layout.value);
    NothingCut(bytes, ranges);
    for i := 0 to |ranges|
      invariant CutSections(bytes, ranges, i, sections) && sections == SectionsFrom(bytes, ranges, i)
    {
      CutNext(bytes, ranges, i, sections);
      SectionsNext(bytes, ranges, i);
      sections := PutSection(sections, Section(ranges[i].tag, bytes[ranges[i].offset..ranges[i].offset + ranges[i].length]));
    }
    if Holds(k, bytes, c) {
      OwnSections(k, arrange, bytes, c, sections);
    }
    CutInOrder(bytes, ranges, sections);
    return Ok(Container(layout.value.major, layout.value.minor, layout.value.flags, sections));
  }

  lemma SoundRanges(k: Crc, bytes: Blob, l: Layout)
    requires Sound(k, bytes, l)
    ensures l.major == FORMAT_MAJOR && DistinctTags(l.sections)
    ensures forall i :: 0 <= i < |l.sections| ==> l.sections[i].offset + l.sections[i].length <= |bytes|
  {
    hide Checksum, Take, DistinctTags;
  }

  lemma NothingCut(bytes: Blob, ranges: seq<Range>)
    requires forall i :: 0 <= i < |ranges| ==> ranges[i].offset + ranges[i].length <= |bytes|
    ensures CutSections(bytes, ranges, 0, []) && SectionsFrom(bytes, ranges, 0) == []
  {
  }

  lemma SectionsNext(bytes: Blob, ranges: seq<Range>, i: nat)
    requires i < |ranges| && ranges[i].offset + ranges[i].length <= |bytes|
    ensures SectionsFrom(bytes, ranges, i + 1) ==
      PutSection(SectionsFrom(bytes, ranges, i), Section(ranges[i].tag, bytes[ranges[i].offset..ranges[i].offset + ranges[i].length]))
  {
    hide PutSection;
  }

  lemma CutInOrder(bytes: Blob, ranges: seq<Range>, s: seq<Section>)
    requires (forall i :: 0 <= i < |ranges| ==> ranges[i].offset + ranges[i].length <= |bytes|) && CutSections(bytes, ranges, |ranges|, s)
    ensures InTagOrder(s)
  {
  }

  lemma HoldsInOrder(k: Crc, bytes: Blob, c: Container)
    requires Holds(k, bytes, c)
    ensures InTagOrder(c.sections)
  {
    hide Serialized, OffsetOf;
  }

  /** The sections a container's own bytes give are its own. */
  lemma OwnSections(k: Crc, arrange: seq<Range> -> seq<Range>, bytes: Blob, c: Container, s: seq<Section>)
    requires Sorts(arrange) && Holds(k, bytes, c)
    requires var ranges := arrange(RangesOf(c.sections, |c.sections|));
      (forall i :: 0 <= i < |ranges| ==> ranges[i].offset + ranges[i].length <= |bytes|) &&
      CutSections(bytes, ranges, |ranges|, s)
    ensures s == c.sections
  {
    hide Sorts, Serialized, OffsetOf, Checksum, CutSections, RangesOf;
    var ranges := arrange(RangesOf(c.sections, |c.sections|));
    TableTags(c);
    ArrangedTags(arrange, RangesOf(c.sections, |c.sections|));
    CutsAll(k, c, ranges);
    AllCut(bytes, ranges, s, c);
  }

  lemma TableTags(c: Container)
    requires Writable(c)
    ensures DistinctTags(RangesOf(c.sections, |c.sections|))
  {
  }

  lemma AllCut(bytes: Blob, ranges: seq<Range>, s: seq<Section>, c: Container)
    requires forall i :: 0 <= i < |ranges| ==> ranges[i].offset + ranges[i].length <= |bytes|
    requires CutSections(bytes, ranges, |ranges|, s) && Writable(c)
    requires forall i :: 0 <= i < |ranges| ==> Cut(bytes, ranges[i]) in c.sections
    requires forall x :: x in c.sections ==> exists i :: 0 <= i < |ranges| && CutIs(bytes, ranges[i], x)
    ensures s == c.sections
  {
    hide Cut, OffsetOf;
    SameSections(s, c.sections);
  }
}
