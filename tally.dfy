// Counting dictionaries, `d[x] = d.get(x, 0) + 1` over a list: each key
// seen maps to its number of occurrences, and the counts add up to the
// length of the list.
module Tally {
  /** The dictionary the counting loop leaves behind after `xs`. */
  function Counts<K(==,!new)>(xs: seq<K>): (m: map<K, nat>)
    ensures forall k :: k in m <==> k in xs
    ensures forall k :: k in m ==> m[k] == multiset(xs)[k] && m[k] > 0
  {
    map k | k in xs :: multiset(xs)[k]
  }

  /** One more element: its count goes up by one, starting from zero. */
  lemma CountsSnoc<K(!new)>(xs: seq<K>, x: K)
    ensures Counts(xs + [x]) == Counts(xs)[x := (if x in Counts(xs) then Counts(xs)[x] else 0) + 1]
  {
    assert multiset(xs + [x]) == multiset(xs) + multiset{x};
    var l := Counts(xs + [x]);
    var r := Counts(xs)[x := (if x in Counts(xs) then Counts(xs)[x] else 0) + 1];
    forall k ensures k in l <==> k in r {
    }
    forall k | k in l ensures l[k] == r[k] {
    }
  }

  /** Some key of a non-empty dictionary. */
  ghost function Pick<K>(m: map<K, nat>): (k: K)
    requires |m| > 0
    ensures k in m
  {
    MapHasKey(m);
    var k :| k in m;
    k
  }

  lemma MapHasKey<K>(m: map<K, nat>)
    requires |m| > 0
    ensures exists k :: k in m
  {
    assert |m.Keys| > 0;
    var k :| k in m.Keys;
  }

  /** Taking one key out of a dictionary shrinks it by one. */
  lemma RemoveSize<K>(m: map<K, nat>, k: K)
    requires k in m
    ensures |m - {k}| == |m| - 1
  {
    assert (m - {k}).Keys == m.Keys - {k};
  }

  /** The sum of the values of a counting dictionary. */
  ghost function Total<K>(m: map<K, nat>): nat
    decreases |m|
  {
    if |m| == 0 then 0
    else
      var k := Pick(m);
      RemoveSize(m, k);
      m[k] + Total(m - {k})
  }

  /** The sum does not depend on which key is taken out first. */
  lemma {:induction false} TotalRemove<K>(m: map<K, nat>, k: K)
    requires k in m
    ensures Total(m) == m[k] + Total(m - {k})
    decreases |m|
  {
    var j := Pick(m);
    if j != k {
      var mj, mk := m - {j}, m - {k};
      RemoveSize(m, j);
      RemoveSize(m, k);
      TotalRemove(mj, k);
      TotalRemove(mk, j);
      assert mj - {k} == mk - {j};
    }
  }

  /** Counting one more occurrence adds one to the sum. */
  lemma TotalIncrement<K>(m: map<K, nat>, x: K)
    ensures Total(m[x := (if x in m then m[x] else 0) + 1]) == Total(m) + 1
  {
    var m' := m[x := (if x in m then m[x] else 0) + 1];
    TotalRemove(m', x);
    if x in m {
      TotalRemove(m, x);
      assert m' - {x} == m - {x};
    } else {
      assert m' - {x} == m;
    }
  }

  /** Every element is counted exactly once. */
  lemma {:induction false} TotalOfCounts<K(!new)>(xs: seq<K>)
    ensures Total(Counts(xs)) == |xs|
  {
    if |xs| > 0 {
      var front, x := xs[..|xs| - 1], xs[|xs| - 1];
      assert xs == front + [x];
      TotalOfCounts(front);
      CountsSnoc(front, x);
      TotalIncrement(Counts(front), x);
    }
  }
}
