/** Sums of a weight over a finite set of keys, the shape of every
    `reduce` and `+=` accumulation the store performs over query results. */
module Sums {

  /** The sum of `w(k)` over the keys; the order in which keys are picked
      does not matter (see TotalRemove). */
  ghost function Total<K>(keys: set<K>, w: K -> int): int
    decreases keys
  {
    if keys == {} then 0 else var k :| k in keys; w(k) + Total(keys - {k}, w)
  }

  /** Any key may be taken out first: this is what lets a loop that picks
      keys in an arbitrary order compute Total. */
  lemma {:induction false} TotalRemove<K>(keys: set<K>, w: K -> int, k: K)
    requires k in keys
    ensures Total(keys, w) == w(k) + Total(keys - {k}, w)
    decreases |keys|
  {
    var j :| j in keys && Total(keys, w) == w(j) + Total(keys - {j}, w);
    if j != k {
      assert k in keys - {j};
      TotalRemove(keys - {j}, w, k);
      assert j in keys - {k};
      TotalRemove(keys - {k}, w, j);
      assert keys - {j} - {k} == keys - {k} - {j};
    }
  }

  /** Adding a key that was not there adds its weight. */
  lemma TotalAdd<K>(keys: set<K>, w: K -> int, k: K)
    requires k !in keys
    ensures Total(keys + {k}, w) == Total(keys, w) + w(k)
  {
    TotalRemove(keys + {k}, w, k);
    assert keys + {k} - {k} == keys;
  }

  /** Two weights that agree on the keys give the same sum. */
  lemma {:induction false} TotalCongruent<K>(keys: set<K>, w1: K -> int, w2: K -> int)
    requires forall k :: k in keys ==> w1(k) == w2(k)
    ensures Total(keys, w1) == Total(keys, w2)
    decreases |keys|
  {
    if keys != {} {
      var k :| k in keys;
      TotalRemove(keys, w1, k);
      TotalRemove(keys, w2, k);
      TotalCongruent(keys - {k}, w1, w2);
    }
  }

  /** A sum of weights that are all at least zero is at least zero. */
  lemma {:induction false} TotalNonNegative<K>(keys: set<K>, w: K -> int)
    requires forall k :: k in keys ==> w(k) >= 0
    ensures Total(keys, w) >= 0
    decreases |keys|
  {
    if keys != {} {
      var k :| k in keys;
      TotalRemove(keys, w, k);
      TotalNonNegative(keys - {k}, w);
    }
  }
}
