/**
 * The second step of report generation: the per-function totals are copied into
 * a vector of (entry address, count) pairs and sorted in place with std::sort,
 * using `maxSamples` as the "comes before" relation.
 */
module Ranking {
  import opened Types

  /** One element of the vector `sortedFunctions`: a function's entry address and its total. */
  datatype FunctionSamples = FunctionSamples(entry: Addr, count: nat)

  /** The comparator `maxSamples`: lhs goes before rhs when it has strictly more samples. */
  predicate MaxSamples(lhs: FunctionSamples, rhs: FunctionSamples) {
    lhs.count > rhs.count
  }

  /** `maxSamples` is a strict weak ordering, as std::sort demands of its comparator:
      irreflexive, transitive, and with transitive incomparability (equal counts). */
  lemma MaxSamplesIsStrictWeakOrder(x: FunctionSamples, y: FunctionSamples, z: FunctionSamples)
    ensures !MaxSamples(x, x)
    ensures MaxSamples(x, y) && MaxSamples(y, z) ==> MaxSamples(x, z)
    ensures !MaxSamples(x, y) && !MaxSamples(y, x) && !MaxSamples(y, z) && !MaxSamples(z, y)
            ==> !MaxSamples(x, z) && !MaxSamples(z, x)
  {
  }

  /** s is ordered as std::sort leaves it with `maxSamples`: no element compares before an
      earlier one, that is, counts never increase along s. Elements with equal counts may
      stand in any order. */
  ghost predicate SortedByMaxSamples(s: seq<FunctionSamples>) {
    forall i, j :: 0 <= i < j < |s| ==> !MaxSamples(s[j], s[i])
  }

  /** s holds exactly the entries of the table m, each once. */
  ghost predicate ListsEntries(s: seq<FunctionSamples>, m: map<Addr, nat>) {
    && |s| == |m.Keys|
    && (forall i :: 0 <= i < |s| ==> s[i].entry in m && m[s[i].entry] == s[i].count)
    && (forall f :: f in m ==> FunctionSamples(f, m[f]) in s)
  }

  /** s is a ranking of the table m: its entries in an order std::sort may produce. */
  ghost predicate Ranks(s: seq<FunctionSamples>, m: map<Addr, nat>) {
    ListsEntries(s, m) && SortedByMaxSamples(s)
  }

  /** Rearranging a listing of a table's entries gives another listing of them. */
  lemma PermutationListsEntries(s: seq<FunctionSamples>, t: seq<FunctionSamples>, m: map<Addr, nat>)
    requires ListsEntries(s, m) && multiset(s) == multiset(t)
    ensures ListsEntries(t, m)
  {
    assert |t| == |multiset(t)| == |multiset(s)| == |s|;
    forall i | 0 <= i < |t|
      ensures t[i].entry in m && m[t[i].entry] == t[i].count
    {
      assert t[i] in multiset(s);
      var j :| 0 <= j < |s| && s[j] == t[i];
    }
    forall f | f in m
      ensures FunctionSamples(f, m[f]) in t
    {
      assert FunctionSamples(f, m[f]) in multiset(t);
    }
  }

  /**
   * Building the vector from the table (the range constructor of `sortedFunctions`):
   * one pair per entry, in the table's iteration order, which the model leaves open.
   */
  method Snapshot(m: map<Addr, nat>) returns (s: seq<FunctionSamples>)
    ensures ListsEntries(s, m)
    ensures forall i, j :: 0 <= i < j < |s| ==> s[i].entry != s[j].entry
  {
    s := [];
    var remaining := m.Keys;
    while remaining != {}
      invariant remaining <= m.Keys
      invariant |s| + |remaining| == |m.Keys|
      invariant forall i :: 0 <= i < |s| ==> s[i].entry in m && s[i].entry !in remaining && m[s[i].entry] == s[i].count
      invariant forall f :: f in m && f !in remaining ==> FunctionSamples(f, m[f]) in s
      invariant forall i, j :: 0 <= i < j < |s| ==> s[i].entry != s[j].entry
      decreases remaining
    {
      var f :| f in remaining;
      s := s + [FunctionSamples(f, m[f])];
      remaining := remaining - {f};
    }
  }

  /** The position of a largest count in a[lo..]. */
  method IndexOfMostSamples(a: array<FunctionSamples>, lo: nat) returns (k: nat)
    requires lo < a.Length
    ensures lo <= k < a.Length
    ensures forall j :: lo <= j < a.Length ==> !MaxSamples(a[j], a[k])
  {
    k := lo;
    var j := lo + 1;
    while j < a.Length
      invariant lo <= k < j <= a.Length
      invariant forall i :: lo <= i < j ==> !MaxSamples(a[i], a[k])
    {
      if MaxSamples(a[j], a[k]) {
        k := j;
      }
      j := j + 1;
    }
  }

  /** Exchanges two elements of the vector. */
  method Swap(a: array<FunctionSamples>, i: nat, j: nat)
    requires i < a.Length && j < a.Length
    modifies a
    ensures a[..] == old(a[..])[i := old(a[j])][j := old(a[i])]
    ensures multiset(a[..]) == multiset(old(a[..]))
  {
    a[i], a[j] := a[j], a[i];
  }

  /**
   * `std::sort(sortedFunctions.begin(), sortedFunctions.end(), maxSamples)`: sorts the
   * vector in place so that counts never increase, keeping its elements. The model
   * sorts by repeated selection of a largest count; std::sort's own algorithm, and so
   * the order it leaves equal counts in, is not modelled.
   */
  method SortByMaxSamples(a: array<FunctionSamples>)
    modifies a
    ensures SortedByMaxSamples(a[..])
    ensures multiset(a[..]) == multiset(old(a[..]))
  {
    var i := 0;
    while i < a.Length
      invariant 0 <= i <= a.Length
      invariant forall p, q :: 0 <= p < q < i ==> !MaxSamples(a[q], a[p])
      invariant forall p, q :: 0 <= p < i <= q < a.Length ==> !MaxSamples(a[q], a[p])
      invariant multiset(a[..]) == multiset(old(a[..]))
    {
      var k := IndexOfMostSamples(a, i);
      Swap(a, i, k);
      i := i + 1;
    }
  }
}
