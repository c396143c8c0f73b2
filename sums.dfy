/**
 * Totals over count tables. A table is a finite map from address to count; its
 * total does not depend on the order the entries are visited in, which is what
 * lets the model walk an unordered_map in whatever order it likes.
 */
module Sums {
  import opened Types

  /** The sum of all counts held in the table. */
  ghost function Sum(m: map<Addr, nat>): nat
    decreases m.Keys
  {
    if m.Keys == {} then 0
    else
      var k :| k in m.Keys;
      m[k] + Sum(m - {k})
  }

  /** Any entry can be taken out first: the total is that entry plus the total of the rest. */
  lemma {:induction false} SumRemove(m: map<Addr, nat>, k: Addr)
    requires k in m
    ensures Sum(m) == m[k] + Sum(m - {k})
    decreases m.Keys
  {
    var j :| j in m.Keys && Sum(m) == m[j] + Sum(m - {j});
    if j != k {
      SumRemove(m - {j}, k);
      SumRemove(m - {k}, j);
      assert (m - {j}) - {k} == (m - {k}) - {j};
    }
  }

  /** Inserting a new key adds its count to the total. */
  lemma SumInsert(m: map<Addr, nat>, k: Addr, v: nat)
    requires k !in m
    ensures Sum(m[k := v]) == Sum(m) + v
  {
    SumRemove(m[k := v], k);
    assert m[k := v] - {k} == m;
  }

  /** Replacing the count of a present key changes the total by the difference. */
  lemma SumReplace(m: map<Addr, nat>, k: Addr, v: nat)
    requires k in m
    ensures Sum(m[k := v]) + m[k] == Sum(m) + v
  {
    SumRemove(m, k);
    SumRemove(m[k := v], k);
    assert m[k := v] - {k} == m - {k};
  }

  /** No single count exceeds the total. */
  lemma SumBoundsEach(m: map<Addr, nat>, k: Addr)
    requires k in m
    ensures m[k] <= Sum(m)
  {
    SumRemove(m, k);
  }

  /** A table that keeps some of the entries of another, unchanged, has no larger total. */
  lemma {:induction false} SumOfSubtable(m: map<Addr, nat>, n: map<Addr, nat>)
    requires n.Keys <= m.Keys
    requires forall k :: k in n ==> n[k] == m[k]
    ensures Sum(n) <= Sum(m)
    decreases m.Keys
  {
    if m.Keys == {} {
      assert n.Keys == {};
    } else {
      var k :| k in m.Keys;
      SumRemove(m, k);
      if k in n {
        SumRemove(n, k);
        SumOfSubtable(m - {k}, n - {k});
      } else {
        assert n.Keys <= (m - {k}).Keys;
        SumOfSubtable(m - {k}, n);
      }
    }
  }
}
