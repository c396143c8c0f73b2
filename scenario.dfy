/**
 * A worked scenario: three sampled addresses, two of them inside function Alpha
 * (entry 0x1000) and one inside Beta (entry 0x2000).
 */
module Scenario {
  import opened Types
  import opened Sums
  import opened Aggregation
  import opened Ranking
  import opened Report
  import opened Profiler

  /** The raw table: 40 hits at 0x1000, 20 at 0x1008, 5 at 0x2000. */
  function SampledTable(): map<Addr, nat> {
    map[0x1000 := 40, 0x1008 := 20, 0x2000 := 5]
  }

  /** 0x1000 and 0x1008 lie in Alpha, 0x2000 in Beta; nothing else resolves. */
  function ScenarioSymbols(): Resolver {
    a => if a == 0x1000 || a == 0x1008 then Some(Symbol(0x1000, "Alpha"))
         else if a == 0x2000 then Some(Symbol(0x2000, "Beta"))
         else None
  }

  function NoLines(): LineResolver {
    a => None
  }

  /** Alpha gathers the 60 samples of its two addresses, Beta its 5. */
  lemma ScenarioFolded()
    ensures FoldedCounts(SampledTable(), ScenarioSymbols()) == map[0x1000 := 60, 0x2000 := 5]
  {
    var raw, resolve := SampledTable(), ScenarioSymbols();
    var t2 := raw - {0x2000};
    var t1 := t2 - {0x1008};
    assert FoldedCounts(t1 - {0x1000}, resolve) == map[] by {
      assert (t1 - {0x1000}).Keys == {};
    }
    assert FoldedCounts(t1, resolve) == map[0x1000 := 40] by {
      FoldRemove(t1, resolve, 0x1000);
    }
    assert FoldedCounts(t2, resolve) == map[0x1000 := 60] by {
      FoldRemove(t2, resolve, 0x1008);
    }
    FoldRemove(raw, resolve, 0x2000);
  }

  /** 65 samples resolve in all. */
  lemma ScenarioResolved()
    ensures ResolvedSamples(SampledTable(), ScenarioSymbols()) == 65
  {
    ScenarioFolded();
    FoldedSumIsResolved(SampledTable(), ScenarioSymbols());
    SumInsert(map[], 0x1000, 60);
    SumInsert(map[0x1000 := 60], 0x2000, 5);
    assert map[0x1000 := 60][0x2000 := 5] == map[0x1000 := 60, 0x2000 := 5];
  }

  /** With distinct totals there is only one ranking: Alpha, then Beta. */
  lemma ScenarioRanking(ranked: seq<FunctionSamples>)
    requires Ranks(ranked, map[0x1000 := 60, 0x2000 := 5])
    ensures ranked == [FunctionSamples(0x1000, 60), FunctionSamples(0x2000, 5)]
  {
    var alpha, beta := FunctionSamples(0x1000, 60), FunctionSamples(0x2000, 5);
    var totals: map<Addr, nat> := map[0x1000 := 60, 0x2000 := 5];
    assert |ranked| == 2;
    assert 0x1000 in totals && 0x2000 in totals;
    assert alpha in ranked && beta in ranked;
    assert !MaxSamples(ranked[1], ranked[0]);
  }

  /** Usage of the two functions: 6000 / 65 and 500 / 65, rounded down. */
  lemma ScenarioUsage()
    ensures CpuUsage(60, 65) == 92 && CpuUsage(5, 65) == 7
  {
  }

  /** The body for the one ranking, under a sample threshold and a 1% threshold. */
  lemma ScenarioBody(minSamples: nat)
    ensures minSamples <= 5 ==>
      Body([FunctionSamples(0x1000, 60), FunctionSamples(0x2000, 5)], 65, false, minSamples, 1, ScenarioSymbols(), NoLines())
      == [Record("Alpha", Percent(92), 60, None), Record("Beta", Percent(7), 5, None)]
    ensures 5 < minSamples <= 60 ==>
      Body([FunctionSamples(0x1000, 60), FunctionSamples(0x2000, 5)], 65, false, minSamples, 1, ScenarioSymbols(), NoLines())
      == [Record("Alpha", Percent(92), 60, None)]
  {
    var alpha, beta := FunctionSamples(0x1000, 60), FunctionSamples(0x2000, 5);
    var ranked := [alpha, beta];
    ScenarioUsage();
    assert ranked[..1] == [alpha];
    assert [alpha][..0] == [];
    assert Displayed(alpha, 65, minSamples, 1, ScenarioSymbols()) <==> minSamples <= 60;
    assert Displayed(beta, 65, minSamples, 1, ScenarioSymbols()) <==> minSamples <= 5;
    assert DisplayedEntries([alpha], 65, minSamples, 1, ScenarioSymbols())
        == if minSamples <= 60 then [alpha] else [];
  }

  /** With the default thresholds (10 samples, 1%) only Alpha is written, at 92% with 60
      samples: Beta's 5 samples are under the sample threshold. */
  lemma ScenarioReport(log: Log)
    requires DescribesSamples(log, SampledTable(), DefaultLogFile, false, 10, 1, ScenarioSymbols(), NoLines())
    ensures log == Log(DefaultLogFile, Header(65, 10, 1), [Record("Alpha", Percent(92), 60, None)])
  {
    ScenarioFolded();
    ScenarioResolved();
    var ranked: seq<FunctionSamples> :| Ranks(ranked, map[0x1000 := 60, 0x2000 := 5])
      && log.body == Body(ranked, 65, false, 10, 1, ScenarioSymbols(), NoLines());
    ScenarioRanking(ranked);
    ScenarioBody(10);
  }

  /** With a sample threshold of 5, Beta is written too, after Alpha, at 7%. */
  lemma ScenarioReportLowThreshold(log: Log)
    requires DescribesSamples(log, SampledTable(), DefaultLogFile, false, 5, 1, ScenarioSymbols(), NoLines())
    ensures log == Log(DefaultLogFile, Header(65, 5, 1),
                       [Record("Alpha", Percent(92), 60, None), Record("Beta", Percent(7), 5, None)])
  {
    ScenarioFolded();
    ScenarioResolved();
    var ranked: seq<FunctionSamples> :| Ranks(ranked, map[0x1000 := 60, 0x2000 := 5])
      && log.body == Body(ranked, 65, false, 5, 1, ScenarioSymbols(), NoLines());
    ScenarioRanking(ranked);
    ScenarioBody(5);
  }
}
