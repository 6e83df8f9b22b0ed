/**
 * Numbers on the wire: converted to network order, then copied byte by byte from memory. Every
 * member takes the host's own byte order; what ends up on the wire does not depend on it.
 */
module Serdes {
  import opened Bytes

  /** The k-byte number whose bytes are those of v in the opposite order. */
  function Swap(k: nat, v: nat): nat {
    FromBig(Reverse(ToBig(k, v)))
  }

  function Hton(e: Endian, k: nat, v: nat): nat {
    if e.Big? then v else Swap(k, v)
  }

  function Ntoh(e: Endian, k: nat, v: nat): nat {
    if e.Big? then v else Swap(k, v)
  }

  /** A host's memory after conversion holds the most significant byte first, on any host. */
  lemma NetworkOrder(e: Endian, k: nat, v: nat)
    requires v < Pow256(k)
    ensures Hton(e, k, v) < Pow256(k)
    ensures ToHost(e, k, Hton(e, k, v)) == ToBig(k, v)
  {
    if e.Little? {
      var r := Reverse(ToBig(k, v));
      ToFromBig(r);
      ReverseTwice(ToBig(k, v));
    }
  }

  lemma HostOrder(e: Endian, b: seq<byte>)
    ensures Ntoh(e, |b|, FromHost(e, b)) == FromBig(b)
  {
    if e.Little? {
      ToFromBig(Reverse(b));
      ReverseTwice(b);
    }
  }

  lemma NtohHton(e: Endian, k: nat, v: nat)
    requires v < Pow256(k)
    ensures Ntoh(e, k, Hton(e, k, v)) == v && Hton(e, k, Ntoh(e, k, v)) == v
  {
    if e.Little? {
      NetworkOrder(e, k, v);
      ToFromBig(Reverse(ToBig(k, v)));
      ReverseTwice(ToBig(k, v));
      FromToBig(k, v);
    }
  }

  /** The growing buffer behind an inserting iterator. */
  class Sink {
    var bytes: seq<byte>

    constructor ()
      ensures bytes == []
    {
      bytes := [];
    }

    method Copy(b: seq<byte>)
      modifies this
      ensures bytes == old(bytes) + b
    {
      var k := 0;
      while k < |b|
        invariant 0 <= k <= |b|
        invariant bytes == old(bytes) + b[..k]
      {
        bytes := bytes + [b[k]];
        k := k + 1;
      }
    }

    /** A number of k bytes, written by a host of order e. */
    method Put(e: Endian, k: nat, v: nat)
      requires v < Pow256(k)
      modifies this
      ensures bytes == old(bytes) + ToBig(k, v)
    {
      var nvalue := Hton(e, k, v);
      NetworkOrder(e, k, v);
      Copy(ToHost(e, k, nvalue));
    }
  }

  /** A moving read position in a byte buffer. */
  class Source {
    const bytes: seq<byte>
    var at: nat

    constructor (bytes: seq<byte>)
      ensures this.bytes == bytes && at == 0
    {
      this.bytes := bytes;
      at := 0;
    }

    method Copy(n: nat) returns (b: seq<byte>)
      requires at + n <= |bytes|
      modifies this
      ensures at == old(at) + n && b == bytes[old(at)..at]
    {
      b := [];
      var k := 0;
      while k < n
        invariant 0 <= k <= n && at == old(at)
        invariant b == bytes[at..at + k]
      {
        b := b + [bytes[at + k]];
        k := k + 1;
      }
      at := at + n;
    }

    /** A number of k bytes, read by a host of order e. */
    method Get(e: Endian, k: nat) returns (v: nat)
      requires at + k <= |bytes|
      modifies this
      ensures at == old(at) + k && v == FromBig(bytes[old(at)..at])
    {
      var b := Copy(k);
      HostOrder(e, b);
      v := Ntoh(e, k, FromHost(e, b));
    }
  }
}
