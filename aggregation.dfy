/**
 * The first pass of report generation: folding the raw per-address sample
 * table into per-function totals, keyed by the canonical entry address the
 * symbol service gives back, and counting the samples that resolved at all.
 */
module Aggregation {
  import opened Types
  import opened Sums

  /** Address a lies in the function whose canonical entry address is f. */
  predicate ResolvesTo(resolve: Resolver, a: Addr, f: Addr) {
    resolve(a).Some? && resolve(a).value.entry == f
  }

  /** The raw counts of the sampled addresses that lie in function f. */
  ghost function SamplesOf(raw: map<Addr, nat>, resolve: Resolver, f: Addr): map<Addr, nat> {
    map a | a in raw && ResolvesTo(resolve, a, f) :: raw[a]
  }

  /** The raw counts of the sampled addresses that resolve to some function. */
  ghost function ResolvedOf(raw: map<Addr, nat>, resolve: Resolver): map<Addr, nat> {
    map a | a in raw && resolve(a).Some? :: raw[a]
  }

  /** What `totalSamples` must hold: the sum of the counts of the addresses that resolve. */
  ghost function ResolvedSamples(raw: map<Addr, nat>, resolve: Resolver): nat {
    Sum(ResolvedOf(raw, resolve))
  }

  /** Adding `count` samples of one address to the per-function totals: nothing when the
      address did not resolve; otherwise its function's total grows, or the function is
      inserted with `count` on its first occurrence. */
  function AddSamples(totals: map<Addr, nat>, symbol: Option<Symbol>, count: nat): map<Addr, nat> {
    match symbol
    case None => totals
    case Some(s) => totals[s.entry := (if s.entry in totals then totals[s.entry] else 0) + count]
  }

  /** The per-function totals of a raw table, one address at a time in no particular order. */
  ghost function FoldedCounts(raw: map<Addr, nat>, resolve: Resolver): map<Addr, nat>
    decreases raw.Keys
  {
    if raw.Keys == {} then map[]
    else
      var a :| a in raw.Keys;
      AddSamples(FoldedCounts(raw - {a}, resolve), resolve(a), raw[a])
  }

  /** Adding the samples of two addresses gives the same totals in either order. */
  lemma AddSamplesCommute(totals: map<Addr, nat>, s1: Option<Symbol>, c1: nat, s2: Option<Symbol>, c2: nat)
    ensures AddSamples(AddSamples(totals, s1, c1), s2, c2) == AddSamples(AddSamples(totals, s2, c2), s1, c1)
  {
  }

  /** The order of the fold does not matter: any address can be taken out first. */
  lemma {:induction false} FoldRemove(raw: map<Addr, nat>, resolve: Resolver, a: Addr)
    requires a in raw
    ensures FoldedCounts(raw, resolve) == AddSamples(FoldedCounts(raw - {a}, resolve), resolve(a), raw[a])
    decreases raw.Keys
  {
    var b :| b in raw.Keys && FoldedCounts(raw, resolve) == AddSamples(FoldedCounts(raw - {b}, resolve), resolve(b), raw[b]);
    if b != a {
      FoldRemove(raw - {b}, resolve, a);
      FoldRemove(raw - {a}, resolve, b);
      assert (raw - {b}) - {a} == (raw - {a}) - {b};
      AddSamplesCommute(FoldedCounts((raw - {a}) - {b}, resolve), resolve(a), raw[a], resolve(b), raw[b]);
    }
  }

  /** The meaning of the fold: a function has a total exactly when some sampled address
      resolves into it, and that total is the sum of the counts of all addresses inside it. */
  lemma {:induction false} FoldedCountsMeaning(raw: map<Addr, nat>, resolve: Resolver, f: Addr)
    ensures f in FoldedCounts(raw, resolve) <==> exists a :: a in raw && ResolvesTo(resolve, a, f)
    ensures f in FoldedCounts(raw, resolve) ==> FoldedCounts(raw, resolve)[f] == Sum(SamplesOf(raw, resolve, f))
    decreases raw.Keys
  {
    if raw.Keys == {} {
      assert FoldedCounts(raw, resolve) == map[];
    } else {
      var a :| a in raw.Keys;
      var rest := raw - {a};
      FoldRemove(raw, resolve, a);
      FoldedCountsMeaning(rest, resolve, f);
      var inside := SamplesOf(rest, resolve, f);
      if ResolvesTo(resolve, a, f) {
        assert SamplesOf(raw, resolve, f) == inside[a := raw[a]];
        SumInsert(inside, a, raw[a]);
        if f !in FoldedCounts(rest, resolve) {
          assert inside.Keys == {};
        }
      } else {
        assert SamplesOf(raw, resolve, f) == inside;
        if f in FoldedCounts(raw, resolve) {
          var b :| b in raw && ResolvesTo(resolve, b, f);
          assert b in rest;
        }
      }
    }
  }

  /** Adding the samples of one address raises the sum of the totals by its count exactly
      when it resolved. */
  lemma SumAddSamples(totals: map<Addr, nat>, symbol: Option<Symbol>, count: nat)
    ensures Sum(AddSamples(totals, symbol, count)) == Sum(totals) + (if symbol.Some? then count else 0)
  {
    match symbol
    case None =>
    case Some(s) =>
      if s.entry in totals {
        SumReplace(totals, s.entry, totals[s.entry] + count);
      } else {
        SumInsert(totals, s.entry, count);
      }
  }

  /** Taking one address out of the table lowers the resolved total by its count exactly
      when it resolves. */
  lemma ResolvedRemove(raw: map<Addr, nat>, resolve: Resolver, a: Addr)
    requires a in raw
    ensures ResolvedSamples(raw, resolve) == ResolvedSamples(raw - {a}, resolve) + (if resolve(a).Some? then raw[a] else 0)
  {
    var rest := ResolvedOf(raw - {a}, resolve);
    if resolve(a).Some? {
      assert ResolvedOf(raw, resolve) == rest[a := raw[a]];
      SumInsert(rest, a, raw[a]);
    } else {
      assert ResolvedOf(raw, resolve) == rest;
    }
  }

  /** `totalSamples` is both the sum of the per-function totals and the sum of the counts
      of the addresses that resolve. */
  lemma {:induction false} FoldedSumIsResolved(raw: map<Addr, nat>, resolve: Resolver)
    ensures Sum(FoldedCounts(raw, resolve)) == ResolvedSamples(raw, resolve)
    decreases raw.Keys
  {
    if raw.Keys == {} {
      assert FoldedCounts(raw, resolve) == map[];
      assert ResolvedOf(raw, resolve).Keys == {};
    } else {
      var a :| a in raw.Keys;
      FoldRemove(raw, resolve, a);
      FoldedSumIsResolved(raw - {a}, resolve);
      SumAddSamples(FoldedCounts(raw - {a}, resolve), resolve(a), raw[a]);
      ResolvedRemove(raw, resolve, a);
    }
  }

  /** Addresses the symbol service cannot place are dropped: the resolved total never
      exceeds the total of the raw table. */
  lemma ResolvedAtMostRaw(raw: map<Addr, nat>, resolve: Resolver)
    ensures ResolvedSamples(raw, resolve) <= Sum(raw)
  {
    SumOfSubtable(raw, ResolvedOf(raw, resolve));
  }

  /** One visit of the first loop: the totals grow as AddSamples says, the fold over the
      visited part of the table takes in the new address, and the grand total grows by its
      count when it resolves. */
  lemma VisitStep(raw: map<Addr, nat>, resolve: Resolver, visited: map<Addr, nat>, a: Addr,
                  before: map<Addr, nat>, after: map<Addr, nat>)
    requires a in raw && a !in visited && before == FoldedCounts(visited, resolve)
    requires after == AddSamples(before, resolve(a), raw[a])
    ensures after == FoldedCounts(visited[a := raw[a]], resolve)
    ensures Sum(after) == Sum(before) + (if resolve(a).Some? then raw[a] else 0)
  {
    FoldRemove(visited[a := raw[a]], resolve, a);
    assert visited[a := raw[a]] - {a} == visited;
    SumAddSamples(before, resolve(a), raw[a]);
  }

  /** No per-function total exceeds the grand total. */
  lemma TotalsBounded(totals: map<Addr, nat>)
    ensures forall f :: f in totals ==> totals[f] <= Sum(totals)
  {
    forall f | f in totals
      ensures totals[f] <= Sum(totals)
    {
      SumBoundsEach(totals, f);
    }
  }

  /**
   * The first loop of report generation: visit every sampled address once, in no
   * particular order (the source walks an unordered_map); when the symbol service
   * places it in a function, add its count to that function's total (inserting the
   * function on its first occurrence) and to the grand total.
   */
  method FoldSamples(raw: map<Addr, nat>, resolve: Resolver) returns (functionCount: map<Addr, nat>, totalSamples: nat)
    ensures functionCount == FoldedCounts(raw, resolve)
    ensures totalSamples == ResolvedSamples(raw, resolve)
    ensures totalSamples == Sum(functionCount)
    ensures forall f :: f in functionCount ==> functionCount[f] <= totalSamples
    ensures (forall a :: a in raw ==> raw[a] >= 1) ==> forall f :: f in functionCount ==> functionCount[f] >= 1
  {
    functionCount, totalSamples := map[], 0;
    var remaining := raw.Keys;
    ghost var visited: map<Addr, nat> := map[];
    while remaining != {}
      invariant remaining <= raw.Keys
      invariant visited.Keys == raw.Keys - remaining
      invariant forall a :: a in visited ==> visited[a] == raw[a]
      invariant functionCount == FoldedCounts(visited, resolve)
      invariant totalSamples == Sum(functionCount)
      invariant (forall a :: a in raw ==> raw[a] >= 1) ==> forall f :: f in functionCount ==> functionCount[f] >= 1
      decreases remaining
    {
      var a :| a in remaining;
      ghost var before := functionCount;
      match resolve(a) {
        case Some(symbol) =>
          if symbol.entry in functionCount {
            functionCount := functionCount[symbol.entry := functionCount[symbol.entry] + raw[a]];
          } else {
            functionCount := functionCount[symbol.entry := raw[a]];
          }
          totalSamples := totalSamples + raw[a];
        case None =>
      }
      VisitStep(raw, resolve, visited, a, before, functionCount);
      remaining := remaining - {a};
      visited := visited[a := raw[a]];
    }
    assert visited == raw;
    FoldedSumIsResolved(raw, resolve);
    TotalsBounded(functionCount);
  }
}
