/** Finite sets of numbers leave numbers out. */
module Finite {
  lemma Bound(keys: set<nat>) returns (bound: nat)
    ensures forall k :: k in keys ==> k < bound
    decreases |keys|
  {
    if keys == {} {
      bound := 0;
    } else {
      var k :| k in keys;
      var rest := Bound(keys - {k});
      bound := if rest <= k then k + 1 else rest;
      assert forall x :: x in keys ==> x == k || x in keys - {k};
    }
  }
}
