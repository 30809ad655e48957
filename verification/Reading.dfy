/** The byte reader all the on-disk formats use: what has been read is a prefix of the input. */
module Reading {
  import opened Bytes

  /** Strings are byte strings. */
  ghost predicate ByteString(s: string) { forall i :: 0 <= i < |s| ==> s[i] as int < 256 }

  function ToBytes(s: string): (b: Blob)
    ensures |b| == |s| && (forall i :: 0 <= i < |s| && s[i] as int < 256 ==> b[i] == s[i] as int)
  {
    seq(|s|, i requires 0 <= i < |s| => if s[i] as int < 256 then s[i] as int else 0)
  }

  function FromBytes(b: Blob): (s: string)
    ensures |s| == |b| && forall i :: 0 <= i < |b| ==> s[i] as int == b[i]
  {
    seq(|b|, i requires 0 <= i < |b| => b[i] as char)
  }

  lemma BytesBack(s: string)
    requires ByteString(s)
    ensures FromBytes(ToBytes(s)) == s
  {
  }

  /** `Writer::str`: a length and the bytes. */
  function PutStr(s: string): (b: Blob)
    ensures |b| == 4 + |s|
  {
    Put(|s|, 4) + ToBytes(s)
  }

  datatype Read<T> = Got(value: T, rest: Blob) | Short

  function ReadU(input: Blob, n: nat): (r: Read<nat>)
    ensures r.Got? <==> |input| >= n
    ensures r.Got? ==> r.rest == input[n..]
  {
    if |input| < n then Short else Got(Take(input[..n]), input[n..])
  }

  function ReadBytes(input: Blob, n: nat): (r: Read<Blob>)
    ensures r.Got? <==> |input| >= n
    ensures r.Got? ==> |r.value| == n
  {
    if |input| < n then Short else Got(input[..n], input[n..])
  }

  function ReadStr(input: Blob): Read<string> {
    match ReadU(input, 4)
    case Short => Short
    case Got(n, rest) =>
      match ReadBytes(rest, n)
      case Short => Short
      case Got(bytes, left) => Got(FromBytes(bytes), left)
  }

  /** A number that fits its width is read back, and the rest is left. */
  lemma ReadPut(x: nat, n: nat, rest: Blob)
    requires x < Pow256(n)
    ensures ReadU(Put(x, n) + rest, n) == Got(x, rest)
  {
    Exact(x, n);
    var all := Put(x, n) + rest;
    assert all[..n] == Put(x, n) && all[n..] == rest;
  }

  lemma ReadPutBytes(b: Blob, rest: Blob)
    ensures ReadBytes(b + rest, |b|) == Got(b, rest)
  {
    var all := b + rest;
    assert all[..|b|] == b && all[|b|..] == rest;
  }

  lemma ReadPutStr(s: string, rest: Blob)
    requires ByteString(s) && |s| < 0x1_0000_0000
    ensures ReadStr(PutStr(s) + rest) == Got(s, rest)
  {
    Widths();
    var tail := ToBytes(s) + rest;
    assert PutStr(s) + rest == Put(|s|, 4) + tail;
    ReadPut(|s|, 4, tail);
    ReadPutBytes(ToBytes(s), rest);
    BytesBack(s);
  }
}
