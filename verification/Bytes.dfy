/** Little-endian integers, as the on-disk formats write and read them. */
module Bytes {

  type byte = x: int | 0 <= x < 256
  type Blob = seq<byte>

  function Pow256(n: nat): (p: nat)
    ensures p >= 1
  {
    if n == 0 then 1 else 256 * Pow256(n - 1)
  }

  /** The low `n` bytes of `x`, least significant first. */
  function Put(x: nat, n: nat): (b: Blob)
    ensures |b| == n
  {
    if n == 0 then [] else [x % 256] + Put(x / 256, n - 1)
  }

  function Take(b: Blob): (x: nat)
    ensures x < Pow256(|b|)
  {
    if b == [] then 0 else b[0] + 256 * Take(b[1..])
  }

  /** Reading back what was written gives the number modulo the width it was written in. */
  lemma {:induction false} PutTake(x: nat, n: nat)
    ensures Take(Put(x, n)) == x % Pow256(n)
  {
    if n > 0 {
      PutTake(x / 256, n - 1);
      assert Put(x, n)[1..] == Put(x / 256, n - 1);
      SplitModulo(x, Pow256(n - 1));
    }
  }

  lemma SplitModulo(x: nat, p: nat)
    requires p >= 1
    ensures x % (256 * p) == x % 256 + 256 * (x / 256 % p)
  {
    var q := x / 256;
    var k := q / p;
    assert q == k * p + q % p;
    assert x == 256 * q + x % 256;
    assert x == k * (256 * p) + (256 * (q % p) + x % 256) by {
      assert 256 * (k * p) == k * (256 * p);
    }
    Remainder(x, 256 * p, k, 256 * (q % p) + x % 256);
  }

  lemma Remainder(x: nat, d: nat, k: nat, r: nat)
    requires d > 0 && x == k * d + r && r < d
    ensures x % d == r
  {
    var k' := x / d;
    assert x == k' * d + x % d;
    assert k < k' ==> (k + 1) * d <= k' * d;
    assert k' < k ==> (k' + 1) * d <= k * d;
  }

  lemma Widths()
    ensures Pow256(2) == 0x1_0000 && Pow256(4) == 0x1_0000_0000 && Pow256(8) == 0x1_0000_0000_0000_0000
  {
    assert Pow256(4) == 256 * Pow256(3) && Pow256(3) == 256 * Pow256(2) && Pow256(2) == 256 * Pow256(1);
    assert Pow256(8) == 256 * Pow256(7) && Pow256(7) == 256 * Pow256(6) && Pow256(6) == 256 * Pow256(5)
           && Pow256(5) == 256 * Pow256(4);
  }

  /** A number that fits its width survives the round trip. */
  lemma Exact(x: nat, n: nat)
    requires x < Pow256(n)
    ensures Take(Put(x, n)) == x
  {
    PutTake(x, n);
    Remainder(x, Pow256(n), 0, x);
  }
}
