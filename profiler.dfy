/**
 * The profiling session: the process-wide state that class Profiler keeps in
 * static members (configuration, instance counter, thread and timer, the raw
 * sample table) and in two function-local static flags, with the operations
 * that change it: construction, the timer tick, and destruction, which writes
 * the report.
 */
module Profiler {
  import opened Types
  import opened Sums
  import opened Aggregation
  import opened Ranking
  import opened Report

  /** The file the report goes to when the constructor is given no file name. */
  const DefaultLogFile: string := "profile.log"

  /** What the constructor throws when a profiler already exists. */
  const AlreadyExistsMessage: string := "Error: Instance of 'Profiler' already exists."

  /** How a construction ends: the profiler is constructed, or the constructor throws. */
  datatype Construction = Constructed | Thrown(message: string)

  /** The hit count of an address in the raw table; 0 for an address never sampled. */
  function Hits(table: map<Addr, nat>, eip: Addr): nat {
    if eip in table then table[eip] else 0
  }

  /** Every tick adds exactly one sample to the raw table's total. */
  lemma TickAddsOneSample(table: map<Addr, nat>, eip: Addr)
    ensures Sum(table[eip := Hits(table, eip) + 1]) == Sum(table) + 1
  {
    if eip in table {
      SumReplace(table, eip, table[eip] + 1);
    } else {
      SumInsert(table, eip, 1);
    }
  }

  /** The report describes the raw table `raw` under the given configuration: it goes to
      `path`, its header holds the resolved total and the thresholds, and its body renders
      some ranking of the per-function totals (std::sort leaves the order of equal counts
      open, so any ranking is allowed). */
  ghost predicate DescribesSamples(log: Log, raw: map<Addr, nat>, path: string, useLineNumbers: bool,
                                   minSamples: nat, minPercent: nat, resolve: Resolver, lineOf: LineResolver)
  {
    var totals := FoldedCounts(raw, resolve);
    var totalSamples := ResolvedSamples(raw, resolve);
    && log.path == path
    && log.header == Header(totalSamples, minSamples, minPercent)
    && exists ranked :: Ranks(ranked, totals) && (ranked != [] ==> totalSamples > 0)
                        && log.body == Body(ranked, totalSamples, useLineNumbers, minSamples, minPercent, resolve, lineOf)
  }

  /** A report's header counts only resolved samples, so its total is at most the raw total. */
  lemma ReportTotal(log: Log, raw: map<Addr, nat>, path: string, useLineNumbers: bool,
                    minSamples: nat, minPercent: nat, resolve: Resolver, lineOf: LineResolver)
    requires DescribesSamples(log, raw, path, useLineNumbers, minSamples, minPercent, resolve, lineOf)
    ensures log.header.totalSamples == ResolvedSamples(raw, resolve) <= Sum(raw)
    ensures log.header.minSamples == minSamples && log.header.minPercent == minPercent
  {
    ResolvedAtMostRaw(raw, resolve);
  }

  /** Every function whose total passes the three tests has its record in the report. */
  lemma ReportComplete(log: Log, raw: map<Addr, nat>, path: string, useLineNumbers: bool,
                       minSamples: nat, minPercent: nat, resolve: Resolver, lineOf: LineResolver, f: Addr)
    requires DescribesSamples(log, raw, path, useLineNumbers, minSamples, minPercent, resolve, lineOf)
    requires f in FoldedCounts(raw, resolve) && log.header.totalSamples > 0
    requires Displayed(FunctionSamples(f, FoldedCounts(raw, resolve)[f]), log.header.totalSamples,
                       minSamples, minPercent, resolve)
    ensures Describe(FunctionSamples(f, FoldedCounts(raw, resolve)[f]), log.header.totalSamples,
                     useLineNumbers, resolve, lineOf) in log.body
  {
    var totals := FoldedCounts(raw, resolve);
    var totalSamples := ResolvedSamples(raw, resolve);
    var ranked: seq<FunctionSamples> :| Ranks(ranked, totals) && (ranked != [] ==> totalSamples > 0)
      && log.body == Body(ranked, totalSamples, useLineNumbers, minSamples, minPercent, resolve, lineOf);
    BodyComplete(ranked, totalSamples, useLineNumbers, minSamples, minPercent, resolve, lineOf,
                 FunctionSamples(f, totals[f]));
  }

  /** Every record of the report is that of a function whose total passes the three tests. */
  lemma ReportSound(log: Log, raw: map<Addr, nat>, path: string, useLineNumbers: bool,
                    minSamples: nat, minPercent: nat, resolve: Resolver, lineOf: LineResolver, i: nat)
    requires DescribesSamples(log, raw, path, useLineNumbers, minSamples, minPercent, resolve, lineOf)
    requires i < |log.body|
    ensures log.header.totalSamples > 0
    ensures exists f :: && f in FoldedCounts(raw, resolve)
                        && Displayed(FunctionSamples(f, FoldedCounts(raw, resolve)[f]), log.header.totalSamples,
                                     minSamples, minPercent, resolve)
                        && log.body[i] == Describe(FunctionSamples(f, FoldedCounts(raw, resolve)[f]),
                                                   log.header.totalSamples, useLineNumbers, resolve, lineOf)
  {
    var totals := FoldedCounts(raw, resolve);
    var totalSamples := ResolvedSamples(raw, resolve);
    var ranked: seq<FunctionSamples> :| Ranks(ranked, totals) && (ranked != [] ==> totalSamples > 0)
      && log.body == Body(ranked, totalSamples, useLineNumbers, minSamples, minPercent, resolve, lineOf);
    BodyRecords(ranked, totalSamples, useLineNumbers, minSamples, minPercent, resolve, lineOf, i);
    var j :| 0 <= j < |ranked| && Displayed(ranked[j], totalSamples, minSamples, minPercent, resolve)
             && log.body[i] == Describe(ranked[j], totalSamples, useLineNumbers, resolve, lineOf);
    assert ranked[j] == FunctionSamples(ranked[j].entry, totals[ranked[j].entry]);
  }

  /** The records of a report never increase in sample count. */
  lemma ReportOrdered(log: Log, raw: map<Addr, nat>, path: string, useLineNumbers: bool,
                      minSamples: nat, minPercent: nat, resolve: Resolver, lineOf: LineResolver)
    requires DescribesSamples(log, raw, path, useLineNumbers, minSamples, minPercent, resolve, lineOf)
    ensures forall i, j :: 0 <= i < j < |log.body| ==> log.body[i].samples >= log.body[j].samples
  {
    var totals := FoldedCounts(raw, resolve);
    var totalSamples := ResolvedSamples(raw, resolve);
    var ranked: seq<FunctionSamples> :| Ranks(ranked, totals) && (ranked != [] ==> totalSamples > 0)
      && log.body == Body(ranked, totalSamples, useLineNumbers, minSamples, minPercent, resolve, lineOf);
    BodyOrdered(ranked, totalSamples, useLineNumbers, minSamples, minPercent, resolve, lineOf);
  }

  /** When no sampled address resolves (in particular when nothing was sampled), the
      report counts no samples and lists no function, and nothing is divided by zero. */
  lemma NothingResolvedReport(log: Log, raw: map<Addr, nat>, path: string, useLineNumbers: bool,
                              minSamples: nat, minPercent: nat, resolve: Resolver, lineOf: LineResolver)
    requires DescribesSamples(log, raw, path, useLineNumbers, minSamples, minPercent, resolve, lineOf)
    requires forall a :: a in raw ==> resolve(a).None?
    ensures log.header.totalSamples == 0 && log.body == []
  {
  }

  /**
   * Report generation after the symbols are loaded: fold the raw table into
   * per-function totals, copy them into a vector, sort it in place with
   * `maxSamples`, and render the functions that pass the thresholds. The raw
   * counts are all at least 1, as the sampler keeps them; this is what makes
   * every division safe.
   */
  method BuildLog(path: string, raw: map<Addr, nat>, useLineNumbers: bool, minSamples: nat, minPercent: nat,
                  resolve: Resolver, lineOf: LineResolver) returns (log: Log)
    requires forall a :: a in raw ==> raw[a] >= 1
    ensures DescribesSamples(log, raw, path, useLineNumbers, minSamples, minPercent, resolve, lineOf)
  {
    var functionCount, totalSamples := FoldSamples(raw, resolve);
    var listed := Snapshot(functionCount);
    var sortedFunctions := new FunctionSamples[|listed|](i requires 0 <= i < |listed| => listed[i]);
    assert sortedFunctions[..] == listed;
    SortByMaxSamples(sortedFunctions);
    var ranked := sortedFunctions[..];
    PermutationListsEntries(listed, ranked, functionCount);
    if ranked != [] {
      assert ranked[0].entry in functionCount;
    }
    var body := RenderBody(ranked, totalSamples, useLineNumbers, minSamples, minPercent, resolve, lineOf);
    log := Log(path, Header(totalSamples, minSamples, minPercent), body);
  }

  /** The process-wide state of the profiler. */
  class Process {
    // The static members of class Profiler.
    var useLineNumbers: bool
    var logFile: string
    var minSamples: nat
    var minPercent: nat
    var instanceCount: nat
    /** The thread opened for sampling (`mainThread`); None before any is opened. */
    var mainThread: Option<ThreadId>
    /** Whether the timer-queue timer (`queueTimer`) exists and fires `record_eip`. */
    var timerArmed: bool
    /** The raw sample table `eipLocations`: hit count per instruction address. */
    var eipLocations: map<Addr, nat>
    // The function-local static flags of init_profiler and InitSymbols.
    var profilerInitialized: bool
    var symbolsInitialized: bool
    /** How many times the symbol service has been initialised (SymInitialize). */
    ghost var symInitializeCalls: nat

    /** The invariant the lifecycle keeps: at most one profiler; stored counts are at least 1;
        the timer only runs inside a session; the table is empty between sessions; the
        symbol service is initialised at most once. */
    ghost predicate Valid()
      reads this
    {
      && instanceCount <= 1
      && (forall a :: a in eipLocations ==> eipLocations[a] >= 1)
      && (timerArmed ==> instanceCount == 1 && mainThread.Some?)
      && (instanceCount == 0 ==> eipLocations == map[])
      && symInitializeCalls == (if symbolsInitialized then 1 else 0)
    }

    /** The state at program start: the static initialisers of Profiler.cpp. */
    constructor ()
      ensures Valid()
      ensures !useLineNumbers && logFile == DefaultLogFile && minSamples == 10 && minPercent == 1
      ensures instanceCount == 0 && mainThread == None && !timerArmed && eipLocations == map[]
      ensures !profilerInitialized && !symbolsInitialized && symInitializeCalls == 0
    {
      useLineNumbers := false;
      logFile := DefaultLogFile;
      minSamples := 10;
      minPercent := 1;
      instanceCount := 0;
      mainThread := None;
      timerArmed := false;
      eipLocations := map[];
      profilerInitialized := false;
      symbolsInitialized := false;
      symInitializeCalls := 0;
    }

    /**
     * The constructor of Profiler, called on thread `currentThread`, with the default
     * arguments of its declaration. It succeeds only when no profiler exists: it then
     * records the configuration (a missing file name means DefaultLogFile), counts the
     * instance and starts sampling the calling thread through the corrected InitProfiler,
     * so that every construction samples, not only the first one of the process.
     * Otherwise it throws and changes nothing.
     */
    method NewProfiler(currentThread: ThreadId, filename: Option<string> := None, enableLineNumbers: bool := false,
                       minimumSamples: nat := 10, minimumCPUUsage: nat := 1) returns (outcome: Construction)
      requires Valid()
      modifies this
      ensures Valid()
      ensures outcome == Constructed <==> old(instanceCount) == 0
      ensures outcome == Constructed ==>
        && logFile == (if filename.Some? then filename.value else DefaultLogFile)
        && useLineNumbers == enableLineNumbers
        && minSamples == minimumSamples && minPercent == minimumCPUUsage
        && instanceCount == 1
        && mainThread == Some(currentThread) && timerArmed
        && eipLocations == map[]
        && symbolsInitialized == old(symbolsInitialized) && symInitializeCalls == old(symInitializeCalls)
        && profilerInitialized == old(profilerInitialized)
      ensures outcome != Constructed ==> outcome == Thrown(AlreadyExistsMessage) && unchanged(this)
    {
      if instanceCount == 0 {
        logFile := if filename.Some? then filename.value else DefaultLogFile;
        useLineNumbers := enableLineNumbers;
        minSamples := minimumSamples;
        minPercent := minimumCPUUsage;
        instanceCount := instanceCount + 1;
        InitProfiler(currentThread);
        outcome := Constructed;
      } else {
        outcome := Thrown(AlreadyExistsMessage);
      }
    }

    /**
     * The constructor of Profiler as written: the same guard and configuration, but
     * sampling starts through init_profiler's once-flag, so only the first construction
     * in the process opens the calling thread and creates the timer.
     */
    method NewProfilerAsWritten(currentThread: ThreadId, filename: Option<string> := None,
                                enableLineNumbers: bool := false, minimumSamples: nat := 10,
                                minimumCPUUsage: nat := 1) returns (outcome: Construction)
      requires Valid()
      modifies this
      ensures Valid()
      ensures outcome == Constructed <==> old(instanceCount) == 0
      ensures outcome == Constructed ==>
        && logFile == (if filename.Some? then filename.value else DefaultLogFile)
        && useLineNumbers == enableLineNumbers
        && minSamples == minimumSamples && minPercent == minimumCPUUsage
        && instanceCount == 1
        && eipLocations == map[]
        && profilerInitialized
        && (old(profilerInitialized) ==> mainThread == old(mainThread) && !timerArmed)
        && (!old(profilerInitialized) ==> mainThread == Some(currentThread) && timerArmed)
        && symbolsInitialized == old(symbolsInitialized) && symInitializeCalls == old(symInitializeCalls)
      ensures outcome != Constructed ==> outcome == Thrown(AlreadyExistsMessage) && unchanged(this)
    {
      if instanceCount == 0 {
        logFile := if filename.Some? then filename.value else DefaultLogFile;
        useLineNumbers := enableLineNumbers;
        minSamples := minimumSamples;
        minPercent := minimumCPUUsage;
        instanceCount := instanceCount + 1;
        InitProfilerAsWritten(currentThread);
        outcome := Constructed;
      } else {
        outcome := Thrown(AlreadyExistsMessage);
      }
    }

    /**
     * init_profiler as the session needs it: open the calling thread for sampling and
     * create the 1 ms timer that calls record_eip. Unlike the source, this happens for
     * every session, not only for the first one of the process.
     */
    method InitProfiler(currentThread: ThreadId)
      modifies this`mainThread, this`timerArmed
      ensures mainThread == Some(currentThread) && timerArmed
    {
      mainThread := Some(currentThread);
      timerArmed := true;
    }

    /**
     * init_profiler as written: guarded by a static flag, so only the first call in the
     * process opens the thread and creates the timer; later calls do nothing.
     */
    method InitProfilerAsWritten(currentThread: ThreadId)
      modifies this`mainThread, this`timerArmed, this`profilerInitialized
      ensures profilerInitialized
      ensures old(profilerInitialized) ==> mainThread == old(mainThread) && timerArmed == old(timerArmed)
      ensures !old(profilerInitialized) ==> mainThread == Some(currentThread) && timerArmed
    {
      if !profilerInitialized {
        mainThread := Some(currentThread);
        timerArmed := true;
        profilerInitialized := true;
      }
    }

    /** DeleteTimerQueueTimer: the timer no longer fires. The model treats the deletion as
        immediate; a tick already in progress is not waited for in the source. */
    method StopTimer()
      modifies this`timerArmed
      ensures !timerArmed
    {
      timerArmed := false;
    }

    /** InitSymbols: only the first call in the process initialises the symbol service. */
    method InitSymbols()
      modifies this`symbolsInitialized, this`symInitializeCalls
      ensures symbolsInitialized
      ensures symInitializeCalls == old(symInitializeCalls) + (if old(symbolsInitialized) then 0 else 1)
    {
      if !symbolsInitialized {
        symInitializeCalls := symInitializeCalls + 1;
        symbolsInitialized := true;
      }
    }

    /**
     * record_eip, the timer callback, with the sampled instruction address as a
     * parameter: a new address is inserted with one hit, a known one gains one hit,
     * and every other entry stays as it was. It only runs while the timer exists.
     */
    method RecordEip(eip: Addr)
      requires Valid() && timerArmed
      modifies this`eipLocations
      ensures Valid()
      ensures eipLocations == old(eipLocations)[eip := Hits(old(eipLocations), eip) + 1]
    {
      if eip !in eipLocations {
        eipLocations := eipLocations[eip := 1];
      } else {
        eipLocations := eipLocations[eip := eipLocations[eip] + 1];
      }
    }

    /** generate_log: make sure the symbols are loaded, then build the report of the
        raw table under the recorded configuration. */
    method GenerateLog(resolve: Resolver, lineOf: LineResolver) returns (log: Log)
      requires Valid()
      modifies this`symbolsInitialized, this`symInitializeCalls
      ensures Valid() && symbolsInitialized
      ensures DescribesSamples(log, eipLocations, logFile, useLineNumbers, minSamples, minPercent, resolve, lineOf)
    {
      InitSymbols();
      log := BuildLog(logFile, eipLocations, useLineNumbers, minSamples, minPercent, resolve, lineOf);
    }

    /** The destructor's clean-up: the raw table is emptied and the instance uncounted. */
    method EndSession()
      requires instanceCount == 1
      modifies this`eipLocations, this`instanceCount
      ensures eipLocations == map[] && instanceCount == 0
    {
      eipLocations := map[];
      instanceCount := instanceCount - 1;
    }

    /**
     * The destructor of Profiler: stop the timer, write the report of everything
     * sampled, then clear the raw table and uncount the instance so that a later
     * profiler starts clean.
     */
    method Destroy(resolve: Resolver, lineOf: LineResolver) returns (log: Log)
      requires Valid() && instanceCount == 1
      modifies this
      ensures Valid()
      ensures DescribesSamples(log, old(eipLocations), old(logFile), old(useLineNumbers), old(minSamples),
                               old(minPercent), resolve, lineOf)
      ensures instanceCount == 0 && eipLocations == map[] && !timerArmed && symbolsInitialized
      ensures logFile == old(logFile) && useLineNumbers == old(useLineNumbers)
      ensures minSamples == old(minSamples) && minPercent == old(minPercent)
      ensures mainThread == old(mainThread) && profilerInitialized == old(profilerInitialized)
    {
      StopTimer();
      log := GenerateLog(resolve, lineOf);
      EndSession();
    }
  }

  /**
   * With the constructor as written, a profiler constructed after an earlier one was
   * destroyed never samples: the earlier destructor deleted the timer and the once-flag
   * keeps the second construction from creating a new one, or from opening its own thread.
   * No tick can run, so the second report counts no samples at all.
   */
  method SecondSessionAsWritten(resolve: Resolver, lineOf: LineResolver)
    returns (armed: bool, sampled: Option<ThreadId>, second: Log)
    ensures !armed && sampled == Some(1)
    ensures second.header.totalSamples == 0 && second.body == []
  {
    var process := new Process();
    var first := process.NewProfilerAsWritten(1);   // first profiler, on thread 1
    var firstLog := process.Destroy(resolve, lineOf);
    var again := process.NewProfilerAsWritten(2);   // second profiler, on thread 2
    armed, sampled := process.timerArmed, process.mainThread;
    second := process.Destroy(resolve, lineOf);
    NothingResolvedReport(second, map[], process.logFile, process.useLineNumbers, process.minSamples,
                          process.minPercent, resolve, lineOf);
  }

  /** With the per-session InitProfiler, the second profiler samples its own thread. */
  method SecondSession() returns (armed: bool, sampled: Option<ThreadId>)
    ensures armed && sampled == Some(2)
  {
    var process := new Process();
    var first := process.NewProfiler(1);
    var log := process.Destroy(a => None, a => None);
    var second := process.NewProfiler(2);
    armed, sampled := process.timerArmed, process.mainThread;
  }

  /** While one profiler exists, constructing another throws and leaves the state alone. */
  method SecondConcurrentProfiler() returns (outcome: Construction, minimum: nat)
    ensures outcome == Thrown(AlreadyExistsMessage) && minimum == 10
  {
    var process := new Process();
    var first := process.NewProfiler(1, Some("run.log"), true, 10, 5);
    outcome := process.NewProfiler(2, None, false, 3, 0);
    minimum := process.minSamples;
  }
}
