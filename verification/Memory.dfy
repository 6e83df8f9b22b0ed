/** A buffer pool: one flat run of bytes cut into equal regions. */
module Memory {
  import opened Bytes

  /** The bytes b with the bytes v stored over them from position at on. */
  function Overlay(b: seq<byte>, at: nat, v: seq<byte>): (r: seq<byte>)
    requires at + |v| <= |b|
    ensures |r| == |b|
    ensures forall i :: 0 <= i < |b| ==> r[i] == if at <= i < at + |v| then v[i - at] else b[i]
  {
    b[..at] + v + b[at + |v|..]
  }

  /** Where region i begins. */
  function Offset(size: nat, i: nat): nat {
    i * size
  }

  /** Region i of a pool cut into regions of the given size. */
  function Region(pool: seq<byte>, size: nat, i: nat): seq<byte> {
    var off := Offset(size, i);
    if off + size <= |pool| then pool[off..off + size] else []
  }

  /** The pool after v was stored in region i, from position at of that region on. */
  function Put(pool: seq<byte>, size: nat, i: nat, at: nat, v: seq<byte>): (p: seq<byte>)
    ensures |p| == |pool|
  {
    var off := Offset(size, i);
    if at + |v| <= size && off + size <= |pool| then Overlay(pool, off + at, v) else pool
  }

  /** Region i of a pool of n regions lies inside the pool. */
  lemma RegionInBounds(n: nat, size: nat, i: nat)
    requires i < n
    ensures Offset(size, i) + size <= n * size
  {
    assert (i + 1) * size <= n * size;
  }

  /** Two different regions share no byte. */
  lemma RegionsDisjoint(size: nat, i: nat, j: nat)
    requires i != j
    ensures Offset(size, i) + size <= Offset(size, j) || Offset(size, j) + size <= Offset(size, i)
  {
    if i < j {
      assert (i + 1) * size <= j * size;
    } else {
      assert (j + 1) * size <= i * size;
    }
  }

  /** What a store leaves alone, and what it does to a stretch around it. */
  lemma OverlaySlice(b: seq<byte>, at: nat, v: seq<byte>, lo: nat, len: nat)
    requires at + |v| <= |b| && lo + len <= |b|
    ensures lo + len <= at || at + |v| <= lo ==> Overlay(b, at, v)[lo..lo + len] == b[lo..lo + len]
    ensures lo <= at && at + |v| <= lo + len ==> Overlay(b, at, v)[lo..lo + len] == Overlay(b[lo..lo + len], at - lo, v)
  {
  }

  /** A store changes the region it names, there and nowhere else. */
  lemma PutRegion(pool: seq<byte>, n: nat, size: nat, i: nat, at: nat, v: seq<byte>)
    requires i < n && |pool| == n * size && at + |v| <= size
    ensures |Region(pool, size, i)| == size
    ensures Region(Put(pool, size, i, at, v), size, i) == Overlay(Region(pool, size, i), at, v)
    ensures forall j: nat :: j != i ==> Region(Put(pool, size, i, at, v), size, j) == Region(pool, size, j)
  {
    hide Offset, Overlay;
    RegionInBounds(n, size, i);
    var off := Offset(size, i);
    OverlaySlice(pool, off + at, v, off, size);
    forall j: nat | j != i
      ensures Region(Put(pool, size, i, at, v), size, j) == Region(pool, size, j)
    {
      RegionsDisjoint(size, i, j);
      if Offset(size, j) + size <= |pool| {
        OverlaySlice(pool, off + at, v, Offset(size, j), size);
      }
    }
  }
}
