/**
 * The last step of report generation: walking the ranked functions, keeping those
 * that re-resolve and pass both display thresholds, and turning each into a report
 * record. The text file is modelled as a header followed by a sequence of records.
 */
module Report {
  import opened Types
  import opened Ranking

  /** How the CPU usage of a function is shown: its integer percentage, or "<1%". */
  datatype Usage = Percent(percent: nat) | BelowOnePercent

  /** One function's lines in the report: name, usage, sample count, and the source
      location when line numbers are enabled and the lookup succeeds. */
  datatype Record = Record(name: string, usage: Usage, samples: nat, location: Option<SourceLine>)

  /** The report's first lines: total samples and the two display thresholds. */
  datatype Header = Header(totalSamples: nat, minSamples: nat, minPercent: nat)

  /** The whole report, and the path of the file it is written to. */
  datatype Log = Log(path: string, header: Header, body: seq<Record>)

  /** `cpuUsage`: the integer percentage of all resolved samples, rounded down. */
  function CpuUsage(count: nat, totalSamples: nat): (percent: nat)
    requires totalSamples > 0
    ensures percent * totalSamples <= count * 100 < (percent + 1) * totalSamples
  {
    count * 100 / totalSamples
  }

  /** Multiplying both sides of an inequality by the same natural number keeps it. */
  lemma MulMonotone(x: nat, y: nat, z: nat)
    requires x <= y
    ensures x * z <= y * z
  {
    assert y * z == x * z + (y - x) * z;
  }

  /** A function never takes more than all of the samples. */
  lemma CpuUsageAtMost100(count: nat, totalSamples: nat)
    requires 0 < totalSamples && count <= totalSamples
    ensures CpuUsage(count, totalSamples) <= 100
  {
    var p := CpuUsage(count, totalSamples);
    MulMonotone(count, totalSamples, 100);
    if p > 100 {
      MulMonotone(101, p, totalSamples);
      assert false;
    }
  }

  /** The usage rounds down to 0 exactly when the function holds less than one percent
      of the samples. */
  lemma CpuUsageZero(count: nat, totalSamples: nat)
    requires 0 < totalSamples
    ensures CpuUsage(count, totalSamples) == 0 <==> count * 100 < totalSamples
  {
    var p := CpuUsage(count, totalSamples);
    if p >= 1 {
      MulMonotone(1, p, totalSamples);
    }
  }

  /** The three tests a ranked function passes to be written: its entry address
      re-resolves, it has at least minSamples samples, and its usage reaches minPercent. */
  predicate Displayed(e: FunctionSamples, totalSamples: nat, minSamples: nat, minPercent: nat, resolve: Resolver)
    requires totalSamples > 0
  {
    && resolve(e.entry).Some?
    && e.count >= minSamples
    && CpuUsage(e.count, totalSamples) >= minPercent
  }

  /** The ranked functions that are written, in ranking order. */
  function DisplayedEntries(ranked: seq<FunctionSamples>, totalSamples: nat, minSamples: nat, minPercent: nat,
                            resolve: Resolver): (shown: seq<FunctionSamples>)
    requires ranked != [] ==> totalSamples > 0
    ensures |shown| <= |ranked|
    ensures forall i :: 0 <= i < |shown| ==> Displayed(shown[i], totalSamples, minSamples, minPercent, resolve)
    decreases |ranked|
  {
    if ranked == [] then []
    else
      var last := ranked[|ranked| - 1];
      DisplayedEntries(ranked[..|ranked| - 1], totalSamples, minSamples, minPercent, resolve)
        + (if Displayed(last, totalSamples, minSamples, minPercent, resolve) then [last] else [])
  }

  /** The record written for a displayed function. The name is the one the symbol
      service gives for the entry address; "<1%" replaces a usage of 0. */
  function Describe(e: FunctionSamples, totalSamples: nat, useLineNumbers: bool, resolve: Resolver,
                    lineOf: LineResolver): Record
    requires totalSamples > 0 && resolve(e.entry).Some?
  {
    var percent := CpuUsage(e.count, totalSamples);
    Record(resolve(e.entry).value.name,
           if percent > 0 then Percent(percent) else BelowOnePercent,
           e.count,
           if useLineNumbers then lineOf(e.entry) else None)
  }

  /** The body of the report: one record per displayed function, in ranking order. */
  function Body(ranked: seq<FunctionSamples>, totalSamples: nat, useLineNumbers: bool, minSamples: nat,
                minPercent: nat, resolve: Resolver, lineOf: LineResolver): seq<Record>
    requires ranked != [] ==> totalSamples > 0
  {
    var shown := DisplayedEntries(ranked, totalSamples, minSamples, minPercent, resolve);
    seq(|shown|, i requires 0 <= i < |shown| => Describe(shown[i], totalSamples, useLineNumbers, resolve, lineOf))
  }

  /** A ranked function is written exactly when it passes the three tests. */
  lemma {:induction false} DisplayedExactly(ranked: seq<FunctionSamples>, totalSamples: nat, minSamples: nat,
                                            minPercent: nat, resolve: Resolver, e: FunctionSamples)
    requires ranked != [] ==> totalSamples > 0
    ensures e in DisplayedEntries(ranked, totalSamples, minSamples, minPercent, resolve)
            <==> e in ranked && Displayed(e, totalSamples, minSamples, minPercent, resolve)
    decreases |ranked|
  {
    if ranked != [] {
      var init := ranked[..|ranked| - 1];
      DisplayedExactly(init, totalSamples, minSamples, minPercent, resolve, e);
      assert ranked == init + [ranked[|ranked| - 1]];
    }
  }

  /** Filtering keeps the ranking order: the written functions never increase in count. */
  lemma {:induction false} DisplayedKeepsOrder(ranked: seq<FunctionSamples>, totalSamples: nat, minSamples: nat,
                                               minPercent: nat, resolve: Resolver)
    requires ranked != [] ==> totalSamples > 0
    requires SortedByMaxSamples(ranked)
    ensures SortedByMaxSamples(DisplayedEntries(ranked, totalSamples, minSamples, minPercent, resolve))
    decreases |ranked|
  {
    if ranked != [] {
      var init := ranked[..|ranked| - 1];
      var last := ranked[|ranked| - 1];
      DisplayedKeepsOrder(init, totalSamples, minSamples, minPercent, resolve);
      var shownInit := DisplayedEntries(init, totalSamples, minSamples, minPercent, resolve);
      forall i | 0 <= i < |shownInit|
        ensures !MaxSamples(last, shownInit[i])
      {
        DisplayedExactly(init, totalSamples, minSamples, minPercent, resolve, shownInit[i]);
        var j :| 0 <= j < |init| && init[j] == shownInit[i];
      }
    }
  }

  /** What the record of a displayed function shows: the usage is "<1%" exactly when the
      integer percentage is 0, which the percentage threshold allows only when it is 0
      itself; otherwise the percentage, at most 100 since no function has more samples
      than all. */
  lemma DescribeShows(e: FunctionSamples, totalSamples: nat, useLineNumbers: bool, minSamples: nat,
                      minPercent: nat, resolve: Resolver, lineOf: LineResolver)
    requires 0 < totalSamples && e.count <= totalSamples
    requires Displayed(e, totalSamples, minSamples, minPercent, resolve)
    ensures
      var r := Describe(e, totalSamples, useLineNumbers, resolve, lineOf);
      && r.name == resolve(e.entry).value.name
      && r.samples == e.count >= minSamples
      && (r.usage == BelowOnePercent <==> r.samples * 100 < totalSamples)
      && (r.usage == BelowOnePercent ==> minPercent == 0)
      && (r.usage.Percent? ==> r.usage.percent == CpuUsage(r.samples, totalSamples)
                               && minPercent <= r.usage.percent <= 100)
      && r.location == (if useLineNumbers then lineOf(e.entry) else None)
  {
    CpuUsageAtMost100(e.count, totalSamples);
    CpuUsageZero(e.count, totalSamples);
  }

  /** Every record of the body is the record of a ranked function that passes the three
      tests, and shows what DescribeShows says. */
  lemma BodyRecords(ranked: seq<FunctionSamples>, totalSamples: nat, useLineNumbers: bool, minSamples: nat,
                    minPercent: nat, resolve: Resolver, lineOf: LineResolver, i: nat)
    requires ranked != [] ==> totalSamples > 0
    requires i < |Body(ranked, totalSamples, useLineNumbers, minSamples, minPercent, resolve, lineOf)|
    ensures exists j :: (0 <= j < |ranked|
      && Displayed(ranked[j], totalSamples, minSamples, minPercent, resolve)
      && Body(ranked, totalSamples, useLineNumbers, minSamples, minPercent, resolve, lineOf)[i]
         == Describe(ranked[j], totalSamples, useLineNumbers, resolve, lineOf))
  {
    var shown := DisplayedEntries(ranked, totalSamples, minSamples, minPercent, resolve);
    DisplayedExactly(ranked, totalSamples, minSamples, minPercent, resolve, shown[i]);
    var j :| 0 <= j < |ranked| && ranked[j] == shown[i];
  }

  /** A ranked function that passes the three tests has its record in the body. */
  lemma BodyComplete(ranked: seq<FunctionSamples>, totalSamples: nat, useLineNumbers: bool, minSamples: nat,
                     minPercent: nat, resolve: Resolver, lineOf: LineResolver, e: FunctionSamples)
    requires ranked != [] ==> totalSamples > 0
    requires e in ranked && Displayed(e, totalSamples, minSamples, minPercent, resolve)
    ensures Describe(e, totalSamples, useLineNumbers, resolve, lineOf)
            in Body(ranked, totalSamples, useLineNumbers, minSamples, minPercent, resolve, lineOf)
  {
    var shown := DisplayedEntries(ranked, totalSamples, minSamples, minPercent, resolve);
    DisplayedExactly(ranked, totalSamples, minSamples, minPercent, resolve, e);
    var k :| 0 <= k < |shown| && shown[k] == e;
    assert Body(ranked, totalSamples, useLineNumbers, minSamples, minPercent, resolve, lineOf)[k]
        == Describe(e, totalSamples, useLineNumbers, resolve, lineOf);
  }

  /** When the ranking is sorted, the body's records never increase in sample count. */
  lemma BodyOrdered(ranked: seq<FunctionSamples>, totalSamples: nat, useLineNumbers: bool, minSamples: nat,
                    minPercent: nat, resolve: Resolver, lineOf: LineResolver)
    requires ranked != [] ==> totalSamples > 0
    requires SortedByMaxSamples(ranked)
    ensures var body := Body(ranked, totalSamples, useLineNumbers, minSamples, minPercent, resolve, lineOf);
            forall i, j :: 0 <= i < j < |body| ==> body[i].samples >= body[j].samples
  {
    DisplayedKeepsOrder(ranked, totalSamples, minSamples, minPercent, resolve);
  }

  /**
   * The second loop of report generation: walk the ranked functions in order and
   * write a record for each one that re-resolves and passes both thresholds.
   */
  method RenderBody(ranked: seq<FunctionSamples>, totalSamples: nat, useLineNumbers: bool, minSamples: nat,
                    minPercent: nat, resolve: Resolver, lineOf: LineResolver) returns (body: seq<Record>)
    requires ranked != [] ==> totalSamples > 0
    ensures body == Body(ranked, totalSamples, useLineNumbers, minSamples, minPercent, resolve, lineOf)
  {
    body := [];
    ghost var shown: seq<FunctionSamples> := [];
    for i := 0 to |ranked|
      invariant shown == DisplayedEntries(ranked[..i], totalSamples, minSamples, minPercent, resolve)
      invariant |body| == |shown|
      invariant forall k :: 0 <= k < |body| ==> body[k] == Describe(shown[k], totalSamples, useLineNumbers, resolve, lineOf)
    {
      var e := ranked[i];
      assert ranked[..i + 1][..i] == ranked[..i];
      match resolve(e.entry) {
        case Some(symbol) =>
          if e.count >= minSamples {
            var cpuUsage := e.count * 100 / totalSamples;
            if cpuUsage >= minPercent {
              var location := if useLineNumbers then lineOf(e.entry) else None;
              if cpuUsage > 0 {
                body := body + [Record(symbol.name, Percent(cpuUsage), e.count, location)];
              } else {
                body := body + [Record(symbol.name, BelowOnePercent, e.count, location)];
              }
              shown := shown + [e];
            }
          }
        case None =>
      }
    }
    assert ranked[..|ranked|] == ranked;
  }
}
