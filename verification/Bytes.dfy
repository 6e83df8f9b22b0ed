/** Bytes, fixed-width numbers and host byte order. */
module Bytes {
  type byte = x: int | 0 <= x < 256

  /** The byte order of a host. */
  datatype Endian = Big | Little

  const TWO_32: nat := 0x1_0000_0000
  const TWO_64: nat := 0x1_0000_0000_0000_0000

  /** 256 to the power k: how many values k bytes hold. */
  function Pow256(k: nat): (p: nat)
    ensures p > 0
  {
    if k == 0 then 1 else 256 * Pow256(k - 1)
  }

  lemma Pow256Values()
    ensures Pow256(2) == 0x1_0000
    ensures Pow256(4) == TWO_32
    ensures Pow256(8) == TWO_64
  {
    assert Pow256(2) == 256 * Pow256(1);
    assert Pow256(3) == 256 * Pow256(2);
    assert Pow256(4) == 256 * Pow256(3);
    assert Pow256(5) == 256 * Pow256(4);
    assert Pow256(6) == 256 * Pow256(5);
    assert Pow256(7) == 256 * Pow256(6);
    assert Pow256(8) == 256 * Pow256(7);
  }

  /** The k low-order bytes of v, most significant first. */
  function ToBig(k: nat, v: nat): (b: seq<byte>)
    ensures |b| == k
  {
    if k == 0 then [] else ToBig(k - 1, v / 256) + [v % 256]
  }

  /** The number that b spells, most significant byte first. */
  function FromBig(b: seq<byte>): nat {
    if b == [] then 0 else 256 * FromBig(b[..|b| - 1]) + b[|b| - 1]
  }

  function Reverse(b: seq<byte>): (r: seq<byte>)
    ensures |r| == |b|
    ensures forall i :: 0 <= i < |b| ==> r[i] == b[|b| - 1 - i]
  {
    seq(|b|, i requires 0 <= i < |b| => b[|b| - 1 - i])
  }

  lemma ReverseTwice(b: seq<byte>)
    ensures Reverse(Reverse(b)) == b
  {
    var r := Reverse(b);
    assert forall i :: 0 <= i < |b| ==> Reverse(r)[i] == r[|b| - 1 - i] == b[i];
  }

  lemma Times(a: nat, b: nat, m: nat)
    ensures (a + b) * m == a * m + b * m
    ensures a <= b ==> a * m <= b * m
  {
  }

  /** Quotient and remainder are unique. */
  lemma DivideUnique(x: nat, m: nat, q: nat, r: nat)
    requires r < m && x == q * m + r
    ensures x / m == q && x % m == r
  {
    var p := x / m;
    assert x == p * m + x % m;
    if p < q {
      Times(p, 1, m);
      Times(p + 1, q, m);
    } else if q < p {
      Times(q, 1, m);
      Times(q + 1, p, m);
    }
  }

  /** Counters that are cut to four bytes agree exactly at multiples of 2^32. */
  lemma Congruent(m: nat, n: nat)
    requires m < n
    ensures m % TWO_32 == n % TWO_32 <==> (n - m) % TWO_32 == 0
    ensures (n - m) % TWO_32 == 0 ==> n - m >= TWO_32
  {
    var p, q := m / TWO_32, n / TWO_32;
    assert m == p * TWO_32 + m % TWO_32 && n == q * TWO_32 + n % TWO_32;
    if m % TWO_32 == n % TWO_32 {
      assert n - m == (q - p) * TWO_32;
    }
    var d := (n - m) / TWO_32;
    if (n - m) % TWO_32 == 0 {
      assert n == (p + d) * TWO_32 + m % TWO_32;
    }
  }

  lemma DivideTwice(v: nat, p: nat)
    requires p > 0
    ensures v / 256 / p == v / (256 * p)
  {
    var a, b := v / 256, v / 256 / p;
    assert v == 256 * a + v % 256 && a == b * p + a % p;
    assert v == b * (256 * p) + 256 * (a % p) + v % 256;
    assert 256 * (a % p) + v % 256 < 256 * p;
    DivideUnique(v, 256 * p, b, 256 * (a % p) + v % 256);
  }

  /** Byte i counts from the most significant end. */
  lemma {:induction false} BigDigit(k: nat, v: nat, i: nat)
    requires i < k
    ensures ToBig(k, v)[i] == v / Pow256(k - 1 - i) % 256
  {
    if i < k - 1 {
      BigDigit(k - 1, v / 256, i);
      DivideTwice(v, Pow256(k - 2 - i));
    }
  }

  lemma {:induction false} FromToBig(k: nat, v: nat)
    requires v < Pow256(k)
    ensures FromBig(ToBig(k, v)) == v
  {
    if k > 0 {
      FromToBig(k - 1, v / 256);
      assert ToBig(k, v)[..k - 1] == ToBig(k - 1, v / 256);
    }
  }

  lemma {:induction false} ToFromBig(b: seq<byte>)
    ensures FromBig(b) < Pow256(|b|)
    ensures ToBig(|b|, FromBig(b)) == b
  {
    if b != [] {
      ToFromBig(b[..|b| - 1]);
      assert b == b[..|b| - 1] + [b[|b| - 1]];
    }
  }

  /** How a host of order e keeps the k-byte number v in memory. */
  function ToHost(e: Endian, k: nat, v: nat): (b: seq<byte>)
    ensures |b| == k
  {
    if e.Big? then ToBig(k, v) else Reverse(ToBig(k, v))
  }

  /** The number a host of order e reads from the bytes b. */
  function FromHost(e: Endian, b: seq<byte>): nat {
    FromBig(if e.Big? then b else Reverse(b))
  }

  lemma FromToHost(e: Endian, k: nat, v: nat)
    requires v < Pow256(k)
    ensures FromHost(e, ToHost(e, k, v)) == v
  {
    FromToBig(k, v);
    ReverseTwice(ToBig(k, v));
  }
}
