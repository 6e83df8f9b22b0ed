/** The 64-bit request identifier of the RPC client: a sequence number and a slot index. */
module RequestId {
  import opened Bytes

  /** The counter is a 64-bit atomic: it reads n modulo 2^64 after n increments. */
  function Counter64(n: nat): nat {
    n % TWO_64
  }

  /**
   * The identifier built from the n-th value of the counter: the shift drops the upper half of
   * the counter, and the slot takes the low half.
   */
  function Encode(n: nat, slot: nat): nat
    requires slot < TWO_32
  {
    Counter64(n) * TWO_32 % TWO_64 + slot
  }

  /** The slot index a receive worker takes from an identifier. */
  function Slot(id: nat): nat {
    id % TWO_32
  }

  /** On 64-bit words the shift-or of the source is the sum above: the two halves do not overlap. */
  lemma ShiftOr(seqNo: bv64, slot: bv64)
    requires slot <= 0xFFFF_FFFF
    ensures (seqNo << 32) | slot == (seqNo << 32) + slot
    ensures ((seqNo << 32) | slot) & 0xFFFF_FFFF == slot
  {
  }

  lemma EncodeShape(n: nat, slot: nat)
    requires slot < TWO_32
    ensures Encode(n, slot) == n % TWO_32 * TWO_32 + slot
    ensures Encode(n, slot) < TWO_64
  {
    var m := n % TWO_64;
    var q := m / TWO_32;
    assert m == q * TWO_32 + m % TWO_32;
    assert m * TWO_32 == q * TWO_64 + m % TWO_32 * TWO_32;
    assert m % TWO_32 * TWO_32 < TWO_64;
    assert m * TWO_32 % TWO_64 == m % TWO_32 * TWO_32;
    var p := n / TWO_64;
    assert n == (p * TWO_32 + q) * TWO_32 + m % TWO_32;
    assert n % TWO_32 == m % TWO_32;
  }

  function Value(x: bv64): nat {
    x as nat
  }

  function Half(x: bv32): nat {
    x as nat
  }

  lemma HalfFits(x: bv32)
    ensures Half(x) < TWO_32
  {
  }

  /** The word that the source computes from the counter's word and the slot. */
  function ShiftOrWord(counter: bv64, slot: bv32): bv64 {
    (counter << 32) | (slot as bv64)
  }

  function Join(high: bv32, low: bv32): bv64 {
    ((high as bv64) << 32) | (low as bv64)
  }

  lemma JoinedHalves(high: bv32, low: bv32)
    ensures Value(Join(high, low)) == Half(high) * TWO_32 + Half(low)
  {
  }

  /** Every 64-bit word is made of two halves. */
  lemma HalvesOf(x: bv64) returns (high: bv32, low: bv32)
    ensures x == Join(high, low)
  {
    high, low := (x >> 32) as bv32, (x & 0xFFFF_FFFF) as bv32;
  }

  /** The shift keeps the lower half, and the slot takes its place. */
  lemma ShiftDrops(high: bv32, low: bv32, slot: bv32)
    ensures ShiftOrWord(Join(high, low), slot) == Join(low, slot)
  {
  }

  lemma OfHalves(n: nat, high: nat, low: nat, slot: nat)
    requires high * TWO_32 + low == Counter64(n) && low < TWO_32 && slot < TWO_32
    ensures low * TWO_32 + slot == Encode(n, slot)
  {
    EncodeShape(n, slot);
    LowPart(n, high, low);
  }

  /** The word is the id, as a number: on the counter's word and any slot. */
  lemma WordIsEncode(n: nat, counter: bv64, slot: bv32)
    requires Value(counter) == Counter64(n)
    ensures Half(slot) < TWO_32 && Value(ShiftOrWord(counter, slot)) == Encode(n, Half(slot))
  {
    hide Encode, Counter64, Value, Half, ShiftOrWord, Join;
    var high, low := HalvesOf(counter);
    HalfFits(low);
    HalfFits(slot);
    JoinedHalves(high, low);
    OfHalves(n, Half(high), Half(low), Half(slot));
    JoinedHalves(low, slot);
    ShiftDrops(high, low, slot);
  }

  lemma LowPart(n: nat, high: nat, low: nat)
    requires low < TWO_32 && Counter64(n) == high * TWO_32 + low
    ensures n % TWO_32 == low
  {
    var p := n / TWO_64;
    assert n == (p * TWO_32 + high) * TWO_32 + low;
  }

  /** The low half always decodes to the slot, also once the counter has passed 2^32 or 2^64. */
  lemma SlotOfEncode(n: nat, slot: nat)
    requires slot < TWO_32
    ensures Slot(Encode(n, slot)) == slot
  {
    EncodeShape(n, slot);
  }

  /** Two identifiers are equal exactly for one slot and counters congruent modulo 2^32. */
  lemma EncodeInjective(n: nat, slot: nat, n': nat, slot': nat)
    requires slot < TWO_32 && slot' < TWO_32
    ensures Encode(n, slot) == Encode(n', slot') <==> slot == slot' && n % TWO_32 == n' % TWO_32
  {
    EncodeShape(n, slot);
    EncodeShape(n', slot');
  }

  /** Different calls that share an identifier are at least 2^32 increments apart. */
  lemma EqualIdsFarApart(n: nat, slot: nat, n': nat, slot': nat)
    requires slot < TWO_32 && slot' < TWO_32
    requires Encode(n, slot) == Encode(n', slot') && n < n'
    ensures n' - n >= TWO_32
  {
    EncodeInjective(n, slot, n', slot');
    hide Encode;
    var q, q' := n / TWO_32, n' / TWO_32;
    assert n == q * TWO_32 + n % TWO_32;
    assert n' == q' * TWO_32 + n' % TWO_32;
    assert q < q';
  }
}
