/** Sums over tables: the meaning of SELECT sum(...) and how it reacts to one row changing. */
module Sums {

  ghost function Total<K>(m: map<K, nat>): nat {
    if m == map[] then 0 else
    var k :| k in m;
    m[k] + Total(m - {k})
  }

  /** The sum does not depend on the order in which rows are visited. */
  lemma {:induction false} TotalRemove<K>(m: map<K, nat>, k: K)
    requires k in m
    ensures Total(m) == m[k] + Total(m - {k})
    decreases |m|
  {
    var first :| first in m && Total(m) == m[first] + Total(m - {first});
    if first != k {
      TotalRemove(m - {first}, k);
      TotalRemove(m - {k}, first);
      assert m - {first} - {k} == m - {k} - {first};
    }
  }

  lemma {:induction false} TotalPut<K>(m: map<K, nat>, k: K, v: nat)
    ensures Total(m[k := v]) == Total(m - {k}) + v
  {
    TotalRemove(m[k := v], k);
    assert m[k := v] - {k} == m - {k};
  }

  lemma {:induction false} TotalMember<K>(m: map<K, nat>, k: K)
    requires k in m
    ensures m[k] <= Total(m)
  {
    TotalRemove(m, k);
  }

  lemma {:induction false} TotalAbsent<K>(m: map<K, nat>, k: K)
    requires k !in m
    ensures Total(m - {k}) == Total(m)
  {
    assert m - {k} == m;
  }

  /** SELECT sum(v): rows are added up in an unspecified order, as an aggregate query does. */
  method SumRows<K>(m: map<K, nat>) returns (total: nat)
    ensures total == Total(m)
  {
    total := 0;
    var rest := m;
    while rest != map[]
      invariant total + Total(rest) == Total(m)
      decreases |rest|
    {
      var k :| k in rest;
      TotalRemove(rest, k);
      total := total + rest[k];
      rest := rest - {k};
    }
  }

  lemma {:induction false} SubsetSize<T>(a: set<T>, b: set<T>)
    requires a <= b
    ensures |a| <= |b|
  {
    assert b == a + (b - a);
  }
}
