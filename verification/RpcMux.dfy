/** RpcClientMux: calls are spread over the clients by a 32-bit counter. */
module RpcMux {
  import opened Bytes

  class RpcClientMux {
    const clients: nat
    var selector: nat

    ghost predicate Valid()
      reads this
    {
      0 < clients && selector < TWO_32
    }

    constructor (clients: nat)
      requires 0 < clients
      ensures Valid() && this.clients == clients && selector == 0
    {
      this.clients := clients;
      selector := 0;
    }

    /** The client that serves the next call: fetch_add on an unsigned int, modulo the number of clients. */
    method Select() returns (client: nat)
      requires Valid()
      modifies this`selector
      ensures Valid() && client == old(selector) % clients && client < clients
      ensures selector == (old(selector) + 1) % TWO_32
    {
      client := selector % clients;
      selector := (selector + 1) % TWO_32;
    }

    /** The clients chosen by k consecutive calls. */
    method SelectMany(k: nat) returns (chosen: seq<nat>)
      requires Valid()
      modifies this`selector
      ensures Valid() && chosen == Choices(clients, old(selector), k)
      ensures selector == (old(selector) + k) % TWO_32
    {
      chosen := [];
      for i := 0 to k
        invariant Valid() && chosen == Choices(clients, old(selector), i)
        invariant selector == (old(selector) + i) % TWO_32
      {
        NextModulo(old(selector) + i, TWO_32);
        var client := Select();
        chosen := chosen + [client];
      }
    }
  }

  /** The client chosen i calls after the counter stood at start. */
  function Choice(clients: nat, start: nat, i: nat): nat
    requires 0 < clients
  {
    (start + i) % TWO_32 % clients
  }

  function Choices(clients: nat, start: nat, k: nat): (s: seq<nat>)
    requires 0 < clients
    ensures |s| == k
  {
    if k == 0 then [] else Choices(clients, start, k - 1) + [Choice(clients, start, k - 1)]
  }

  /** How many of k consecutive calls client j gets. */
  function Load(clients: nat, start: nat, k: nat, j: nat): nat
    requires 0 < clients
  {
    if k == 0 then 0 else Load(clients, start, k - 1, j) + if Choice(clients, start, k - 1) == j then 1 else 0
  }

  lemma {:induction false} LoadCounts(clients: nat, start: nat, k: nat, j: nat)
    requires 0 < clients
    ensures Load(clients, start, k, j) == multiset(Choices(clients, start, k))[j]
  {
    if k > 0 {
      LoadCounts(clients, start, k - 1, j);
    }
  }

  /** Every client gets the floor or the ceiling of its share. */
  predicate Share(clients: nat, k: nat, load: nat)
    requires 0 < clients
  {
    k / clients <= load <= (k + clients - 1) / clients
  }

  /** k calls from start on are shared out evenly. */
  ghost predicate Fair(clients: nat, start: nat, k: nat)
    requires 0 < clients
  {
    forall j: nat :: j < clients ==> Share(clients, k, Load(clients, start, k, j))
  }

  // ---------------------------------------------------------------- arithmetic

  lemma NextModulo(x: nat, m: nat)
    requires 0 < m
    ensures (x + 1) % m == (x % m + 1) % m
    ensures (x + 1) / m == x / m + if x % m == m - 1 then 1 else 0
    ensures (x + 1) % m == if x % m == m - 1 then 0 else x % m + 1
  {
    var q, r := x / m, x % m;
    assert x == q * m + r;
    if r == m - 1 {
      assert x + 1 == (q + 1) * m;
      DivideUnique(x + 1, m, q + 1, 0);
      DivideUnique(m, m, 1, 0);
    } else {
      DivideUnique(x + 1, m, q, r + 1);
      DivideUnique(r + 1, m, 0, r + 1);
    }
  }

  /** How many numbers below x leave the remainder j. */
  function Hits(m: nat, j: nat, x: nat): nat
    requires j < m
  {
    (x + m - 1 - j) / m
  }

  /** A quotient one further on. */
  lemma DivideNext(x: nat, m: nat, q: nat, r: nat)
    requires r < m && x == q * m + m + r
    ensures x / m == q + 1
  {
    Times(q, 1, m);
    DivideUnique(x, m, q + 1, r);
  }

  lemma HitsStep(m: nat, j: nat, x: nat)
    requires j < m
    ensures Hits(m, j, x + 1) == Hits(m, j, x) + if x % m == j then 1 else 0
  {
    var q, r := x / m, x % m;
    assert x == q * m + r;
    if r > j {
      DivideNext(x + m - 1 - j, m, q, r - 1 - j);
      DivideNext(x + m - j, m, q, r - j);
    } else {
      DivideUnique(x + m - 1 - j, m, q, r + m - 1 - j);
      if r == j {
        DivideNext(x + m - j, m, q, 0);
      } else {
        DivideUnique(x + m - j, m, q, r + m - j);
      }
    }
  }

  lemma ShareOfDifference(m: nat, a: nat, k: nat)
    requires 0 < m
    ensures a / m <= (a + k) / m && Share(m, k, (a + k) / m - a / m)
  {
    SumQuotient(m, a, k);
    CeilingQuotient(m, k);
  }

  lemma SumQuotient(m: nat, a: nat, k: nat)
    requires 0 < m
    ensures (a + k) / m == a / m + k / m + if a % m + k % m < m then 0 else 1
  {
    var qa, ra, qk, rk := a / m, a % m, k / m, k % m;
    var carry := if ra + rk < m then 0 else 1;
    Times(qa, qk, m);
    Times(qa + qk, carry, m);
    DivideUnique(a + k, m, qa + qk + carry, ra + rk - carry * m);
  }

  lemma CeilingQuotient(m: nat, k: nat)
    requires 0 < m
    ensures (k + m - 1) / m == k / m + if k % m == 0 then 0 else 1
  {
    var q, r := k / m, k % m;
    if r == 0 {
      DivideUnique(k + m - 1, m, q, m - 1);
    } else {
      Times(q, 1, m);
      DivideUnique(k + m - 1, m, q + 1, r - 1);
    }
  }

  // ---------------------------------------------------------------- fairness

  /** The selection runs round robin over the window: the counter's wrap, if any, does not show. */
  predicate RoundRobin(clients: nat, start: nat, k: nat)
    requires 0 < clients
  {
    forall i: nat :: i < k ==> Choice(clients, start, i) == (start + i) % clients
  }

  lemma {:induction false} RoundRobinLoad(clients: nat, start: nat, k: nat, j: nat)
    requires j < clients && RoundRobin(clients, start, k)
    ensures Load(clients, start, k, j) == Hits(clients, j, start + k) - Hits(clients, j, start)
  {
    if k > 0 {
      RoundRobinLoad(clients, start, k - 1, j);
      assert Choice(clients, start, k - 1) == (start + (k - 1)) % clients;
      HitsStep(clients, j, start + (k - 1));
    }
  }

  lemma RoundRobinIsFair(clients: nat, start: nat, k: nat)
    requires 0 < clients && RoundRobin(clients, start, k)
    ensures Fair(clients, start, k)
  {
    hide Share, Hits;
    forall j: nat | j < clients
      ensures Share(clients, k, Load(clients, start, k, j))
    {
      RoundRobinLoad(clients, start, k, j);
      HitsShare(clients, start, k, j);
    }
  }

  lemma HitsShare(clients: nat, start: nat, k: nat, j: nat)
    requires j < clients
    ensures Hits(clients, j, start + k) >= Hits(clients, j, start)
    ensures Share(clients, k, Hits(clients, j, start + k) - Hits(clients, j, start))
  {
    hide Share;
    var a := start + clients - 1 - j;
    assert a + k == start + k + clients - 1 - j;
    ShareOfDifference(clients, a, k);
  }

  /** Without a wrap of the selector in the window, the calls are shared out evenly. */
  lemma FairWithoutWrap(clients: nat, start: nat, k: nat)
    requires 0 < clients && start + k <= TWO_32
    ensures Fair(clients, start, k)
  {
    hide Fair;
    forall i: nat | i < k
      ensures Choice(clients, start, i) == (start + i) % clients
    {
      DivideUnique(start + i, TWO_32, 0, start + i);
    }
    RoundRobinIsFair(clients, start, k);
  }

  lemma ModuloOfModulo(x: nat, big: nat, m: nat)
    requires 0 < m && 0 < big && big % m == 0
    ensures x % big % m == x % m
  {
    var q, r, p := x / big, x % big, big / m;
    ProductTimes(q, p, m);
    Times(q * p, r / m, m);
    DivideUnique(x, m, q * p + r / m, r % m);
  }

  lemma ProductTimes(q: nat, p: nat, m: nat)
    ensures q * (p * m) == q * p * m
  {
  }

  lemma {:induction false} LoadGrows(clients: nat, start: nat, k: nat, j: nat)
    requires 0 < clients && 0 < k && Choice(clients, start, 0) == j
    ensures Load(clients, start, k, j) >= 1
  {
    if k > 1 {
      LoadGrows(clients, start, k - 1, j);
    } else {
      assert Load(clients, start, 0, j) == 0;
    }
  }

  /** Where the wrap is: the last multiple of clients at or below 2^32, r calls before it. */
  lemma AroundWrap(clients: nat)
    requires 0 < clients && TWO_32 % clients != 0
    ensures var r := TWO_32 % clients;
            && r <= TWO_32
            && Choice(clients, TWO_32 - r, 0) == 0
            && Choice(clients, TWO_32 - r, r) == 0
  {
    var r := TWO_32 % clients;
    var q := TWO_32 / clients;
    assert TWO_32 == q * clients + r;
    DivideUnique(TWO_32 - r, clients, q, 0);
    DivideUnique(TWO_32 - r, TWO_32, 0, TWO_32 - r);
    DivideUnique(TWO_32, TWO_32, 1, 0);
    DivideUnique(0, clients, 0, 0);
  }

  /** When the number of clients does not divide 2^32, client 0 is served twice around the wrap. */
  lemma UnfairAtWrap(clients: nat)
    requires 0 < clients && TWO_32 % clients != 0
    ensures var r := TWO_32 % clients; r <= TWO_32 && !Fair(clients, TWO_32 - r, r + 1)
  {
    AroundWrap(clients);
    var r := TWO_32 % clients;
    var start := TWO_32 - r;
    TwoAtWrap(clients, start, r);
  }

  lemma TwoAtWrap(clients: nat, start: nat, r: nat)
    requires 0 < r < clients && Choice(clients, start, 0) == 0 && Choice(clients, start, r) == 0
    ensures !Fair(clients, start, r + 1)
  {
    hide Choice;
    LoadGrows(clients, start, r, 0);
    assert Load(clients, start, r + 1, 0) >= 2;
    DivideUnique(r + clients, clients, 1, r);
    assert !Share(clients, r + 1, Load(clients, start, r + 1, 0));
  }

  /** Calls are shared out evenly over every window exactly if the number of clients divides 2^32. */
  lemma FairExactlyIf(clients: nat)
    requires 0 < clients
    ensures (forall start: nat, k: nat :: start < TWO_32 ==> Fair(clients, start, k)) <==> TWO_32 % clients == 0
  {
    hide Fair;
    if TWO_32 % clients == 0 {
      forall start: nat, k: nat | start < TWO_32
        ensures Fair(clients, start, k)
      {
        forall i: nat | i < k
          ensures Choice(clients, start, i) == (start + i) % clients
        {
          ModuloOfModulo(start + i, TWO_32, clients);
        }
        RoundRobinIsFair(clients, start, k);
      }
    } else {
      UnfairAtWrap(clients);
    }
  }
}