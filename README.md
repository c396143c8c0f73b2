# Sampling profiler model

This project models the core of a small Windows sampling profiler for 32-bit programs.
Constructing a `Profiler` object (the first one in the process, see "## Findings") starts a 1 ms timer-queue timer. On each tick the timer
callback (`record_eip`) suspends the profiled thread and reads its instruction pointer (EIP).
The callback adds one hit for that address to a process-wide table.

Destroying the profiler stops the timer and writes a report (`generate_log`):
- every sampled address is resolved to the entry address of its function with the debug-symbol service;
- the samples are summed per function, and the functions are sorted by sample count (descending);
- each function whose count reaches `minSamples` and whose integer CPU share reaches `minPercent` gets a line.

The destructor then clears the table so that a later profiler starts clean.

The Dafny modules follow that structure:

- `Types`: 32-bit addresses, symbols, and source lines. The symbol service and the line lookup become function parameters (`Resolver`, `LineResolver`).
- `Sums`: the total of a table of counts, with the lemmas that make it independent of visiting order.
- `Aggregation`: the first loop of `generate_log`. A table is folded into per-function totals and a grand total. The loop method is `FoldSamples`, and it is proved against the specification functions `FoldedCounts` and `ResolvedSamples`.
- `Ranking`: the `maxSamples` comparator, and the copy of the totals into a vector that is sorted in place. `SortByMaxSamples` is a selection sort on an `array`, standing in for `std::sort`.
- `Report`: the integer CPU share and the three display tests. It gives the record written for a function and the second loop of `generate_log` (`RenderBody`).
- `Profiler`: the process-wide state kept in the class's static members and in two function-local static flags. This is a Dafny class `Process`, with the constructor, the timer tick, the destructor and report generation as methods. The module also holds the specification `DescribesSamples` of a correct report and the lemmas about it.
- `Scenario`: a worked three-address example, proved end to end.

A report is modelled as a `Log` value, not as text. It has the file path, a header (total samples and the two thresholds) and one `Record` per displayed function. A record holds the name, either a percentage or "below one percent", the sample count, and an optional source location.

The order of equal counts after `std::sort` is unspecified, so `DescribesSamples` accepts the rendering of any ranking of the totals. The iteration order of `unordered_map` is also unspecified, so the fold is proved independent of visiting order (`FoldRemove`).

Points of the code worth knowing when reading the model:
- With `minSamples = 10`, a function with 5 samples is below the threshold (Profiler.cpp:143), so in the worked example only Alpha is listed (`Scenario.ScenarioReport`). Both functions are listed once the threshold is 5 (`Scenario.ScenarioReportLowThreshold`).
- `std::sort` leaves the order of equal counts unspecified and is not stable, so the model leaves tie order open.
- The return values of `OpenThread`, `CreateTimerQueueTimer`, `SuspendThread` and `GetThreadContext` are not checked: a failed thread or timer creation does not fail construction, and a failed tick still records an address.
- There is no separate stop operation: the timer is deleted only by the destructor.
- The constructor's default arguments (Profiler.h:8) are the defaults of `Process.NewProfiler`: no file name, line numbers off, 10 samples, 1 percent.

## Model

| member | source | states |
|---|---|---|
| Aggregation.AddSamples | Profiler.cpp:104-120 | One insert-or-add step of the first loop: nothing for an address that does not resolve, otherwise the function's total grows by the count (inserted on its first occurrence). Its effect on the sum is `SumAddSamples`; the fold it builds is characterised by `FoldedCountsMeaning`. |
| Aggregation.FoldSamples | Profiler.cpp:97-122 | The loop over the raw table yields exactly the per-function totals `FoldedCounts` and the grand total `ResolvedSamples`. The grand total is the sum of the per-function totals and no function's total exceeds it. When every raw count is at least 1, so is every total. |
| Aggregation.FoldRemove | Profiler.cpp:97-118 | The fold gives the same totals whichever address is visited first, so the unspecified iteration order of the table does not matter. |
| Aggregation.FoldedCountsMeaning | Profiler.cpp:104-118 | A function has a total if and only if some sampled address resolves into it. That total is the sum of the counts of all sampled addresses that resolve into it. |
| Aggregation.SumAddSamples | Profiler.cpp:104-121 | Visiting one address raises the sum of the totals by its count when it resolves, and leaves it unchanged when it does not. |
| Aggregation.ResolvedRemove | Profiler.cpp:104-121 | Removing one address lowers the resolved total by its count exactly when it resolves. |
| Aggregation.FoldedSumIsResolved | Profiler.cpp:104-121 | The sum of the per-function totals equals the total of the samples whose address resolves. |
| Aggregation.ResolvedAtMostRaw | Profiler.cpp:104-121 | Samples at unresolvable addresses are dropped, so the resolved total is at most the raw total. |
| Aggregation.VisitStep | Profiler.cpp:104-121 | One loop visit extends the fold over the visited addresses by the new address, and raises the grand total by its count when it resolves. |
| Aggregation.TotalsBounded | Profiler.cpp:112-120 | No per-function total exceeds the sum of all totals. |
| Ranking.MaxSamples | Profiler.cpp:33-36 | The comparator: one function ranks before another when it has more samples. Its ordering properties are `MaxSamplesIsStrictWeakOrder`. |
| Ranking.MaxSamplesIsStrictWeakOrder | Profiler.cpp:33-36 | `maxSamples` is irreflexive and transitive, and incomparability is transitive, so it is a valid `std::sort` comparator. |
| Ranking.Snapshot | Profiler.cpp:130 | The vector built from the totals lists each (function, total) pair of the map exactly once, and nothing else. |
| Ranking.PermutationListsEntries | Profiler.cpp:130-131 | Reordering the vector keeps it an exact listing of the totals. |
| Ranking.IndexOfMostSamples | Profiler.cpp:131 | The returned index in the unsorted suffix holds an element that no other element of the suffix outranks under `maxSamples`. |
| Ranking.Swap | Profiler.cpp:131 | Exchanges two elements of the vector and changes nothing else, so the contents stay a permutation. |
| Ranking.SortByMaxSamples | Profiler.cpp:131 | After sorting in place, no element is outranked by a later one under `maxSamples`, and the array is a permutation of its old contents. |
| Report.CpuUsage | Profiler.cpp:145 | The usage is the integer quotient of `count * 100` by the total: `percent * total <= count * 100 < (percent + 1) * total`. |
| Report.CpuUsageAtMost100 | Profiler.cpp:145 | A function's usage is at most 100 when its count does not exceed the total. |
| Report.CpuUsageZero | Profiler.cpp:145-157 | The usage is 0, shown as "<1%", exactly when `count * 100` is less than the total. |
| Report.Displayed | Profiler.cpp:140-148 | The three display tests: the function re-resolves, its count reaches `minSamples`, and its integer usage reaches `minPercent`. Its use as a filter is `DisplayedExactly`. |
| Report.Describe | Profiler.cpp:148-169 | The record written for a displayed function; what it carries is `DescribeShows`. |
| Report.Body | Profiler.cpp:133-175 | The records of the displayed functions in ranking order; its soundness, completeness and order are `BodyRecords`, `BodyComplete` and `BodyOrdered`. |
| Report.DisplayedEntries | Profiler.cpp:133-148 | The functions that reach the body all resolve and pass both thresholds, and there are no more of them than ranked functions. |
| Report.DisplayedExactly | Profiler.cpp:140-148 | A ranked function is displayed if and only if it re-resolves, its count is at least `minSamples`, and its usage is at least `minPercent`. |
| Report.DisplayedKeepsOrder | Profiler.cpp:133-148 | Filtering a ranking keeps it ordered by `maxSamples`. |
| Report.DescribeShows | Profiler.cpp:148-169 | The record of a displayed function carries: its resolved name; its count, which is at least `minSamples`; "<1%" exactly when `count * 100` is below the total, which only passes when `minPercent` is 0; otherwise a percentage equal to `CpuUsage`, between `minPercent` and 100. It carries a location only when line numbers are on and the lookup succeeds. |
| Report.BodyRecords | Profiler.cpp:133-175 | Every record of the body describes a displayed function of the ranking. |
| Report.BodyComplete | Profiler.cpp:133-175 | Every displayed function of the ranking has its record in the body. |
| Report.BodyOrdered | Profiler.cpp:133-175 | The records of a body rendered from a sorted ranking never increase in sample count. |
| Report.RenderBody | Profiler.cpp:133-175 | The second loop of `generate_log` writes exactly the records `Body` specifies, in ranking order. |
| Profiler.TickAddsOneSample | Profiler.cpp:188-199 | Each tick raises the raw table's total by exactly one. |
| Profiler.ReportTotal | Profiler.cpp:104-126 | The report header holds the resolved total, which is at most the raw total, and the two thresholds in force. |
| Profiler.ReportComplete | Profiler.cpp:97-175 | Every function whose total re-resolves and passes both thresholds has its record in the report. |
| Profiler.ReportSound | Profiler.cpp:97-175 | Every record of the report is that of a function whose total re-resolves and passes both thresholds, and the total is then positive, so no division by zero occurs. |
| Profiler.ReportOrdered | Profiler.cpp:130-175 | The report's records are in non-increasing order of sample count. |
| Profiler.BuildLog | Profiler.cpp:88-175 | Folding, copying, sorting and rendering the raw table produces a report that `DescribesSamples` accepts for that table and configuration. |
| Profiler.Process.constructor | Profiler.cpp:11-18 | At program start there are no line numbers, the log file is "profile.log", `minSamples` is 10, `minPercent` is 1, no instance exists, no timer runs, the table is empty, and both once-flags are clear. |
| Profiler.Process.NewProfiler | Profiler.cpp:39-54 | The constructor with the corrected `init_profiler` of the Findings row. Construction succeeds if and only if no profiler exists. On success it records the configuration (the file name as a value, see "## Left out"), with a missing file name meaning "profile.log", counts the instance, starts sampling the calling thread (on every construction, unlike the code as written) and leaves the table empty. Otherwise it throws the "already exists" message and changes nothing. |
| Profiler.Process.NewProfilerAsWritten | Profiler.cpp:39-54 | The constructor as written: the same guard, configuration, count and throw, but the thread is opened and the timer armed only by the first construction in the process; a later one keeps the old thread and no timer. |
| Profiler.Process.InitProfiler | Profiler.cpp:70-83 | The corrected `init_profiler` opens the calling thread and arms the timer on every call. |
| Profiler.Process.InitProfilerAsWritten | Profiler.cpp:70-83 | `init_profiler` as written opens the thread and arms the timer only on its first call in the process. Later calls leave both as they were. |
| Profiler.Process.StopTimer | Profiler.cpp:62 | The timer no longer fires; the model treats the deletion as immediate (see "## Left out"). |
| Profiler.Process.InitSymbols | Profiler.cpp:21-30 | The symbol service is initialised on the first call only. Afterwards it is initialised, and the count of initialisations grows by one only on that first call. |
| Profiler.Process.RecordEip | Profiler.cpp:188-199 | A tick inserts a new address with one hit or adds one hit to a known address. Every other entry is unchanged, and the lifecycle invariant holds. |
| Profiler.Process.GenerateLog | Profiler.cpp:86-177 | After loading the symbols, the report describes the raw table under the recorded file, line-number flag and thresholds. |
| Profiler.Process.EndSession | Profiler.cpp:64-66 | The table is emptied and the instance uncounted. |
| Profiler.Process.Destroy | Profiler.cpp:57-67 | The destructor stops the timer and reports the table as it was at destruction under the session's configuration. It then leaves no instance, an empty table and the configuration unchanged. |
| Profiler.SecondSessionAsWritten | Profiler.cpp:39-83 | With the constructor as written, a second profiler on another thread, constructed after the first is destroyed, runs no timer, keeps the first thread, and its report counts no samples and lists no function. |
| Profiler.NothingResolvedReport | Profiler.cpp:97-175 | When no sampled address resolves to a function (in particular when nothing was sampled), the report has total 0 and no records, so no division by zero is reached. |
| Profiler.SecondSession | Profiler.cpp:39-83 | With the corrected `init_profiler`, a second profiler after the first is destroyed samples its own thread with a running timer. |
| Profiler.SecondConcurrentProfiler | Profiler.cpp:41-53 | Constructing a second profiler while one exists throws the "already exists" message and keeps the first one's `minSamples`. |
| Scenario.ScenarioFolded | Profiler.cpp:97-122 | Samples at 0x1000:40 and 0x1008:20, both in Alpha, and 0x2000:5 in Beta fold into Alpha 60 and Beta 5. |
| Scenario.ScenarioResolved | Profiler.cpp:104-120 | The resolved total of that table is 65. |
| Scenario.ScenarioRanking | Profiler.cpp:130-131 | The only ranking of those totals is Alpha before Beta. |
| Scenario.ScenarioUsage | Profiler.cpp:145 | Alpha's usage is 92% and Beta's is 7%. |
| Scenario.ScenarioBody | Profiler.cpp:133-175 | With a 1% threshold, the body lists Alpha then Beta when `minSamples` is at most 5, and Alpha alone when it is between 6 and 60. |
| Scenario.ScenarioReport | Profiler.cpp:86-177 | With thresholds 10 and 1 the report has header (65, 10, 1) and the single record "Alpha", 92%, 60 samples. |
| Scenario.ScenarioReportLowThreshold | Profiler.cpp:86-177 | With thresholds 5 and 1 the report lists Alpha (92%, 60) and then Beta (7%, 5). |

## Left out

- The Win32 calls `OpenThread`, `CreateTimerQueueTimer`, `DeleteTimerQueueTimer`, `SuspendThread`, `GetThreadContext` and `ResumeThread` are left out. The thread is a `ThreadId`, the timer is the flag `timerArmed`, and the sampled EIP is the parameter of `RecordEip`. A failed `GetThreadContext` records address 0 from the zeroed `CONTEXT`; this is not modelled, because the address is a parameter.
- The DbgHelp calls `SymSetOptions`, `SymInitialize`, `SymFromAddr` and `SymGetLineFromAddr` are left out, and so is the sizing of the `SYMBOL_INFO` buffer. Symbol and line lookup are the `Resolver` and `LineResolver` parameters, which behave the same in both loops of `generate_log`. Initialising the symbol service is the flag kept by `InitSymbols`, with a ghost counter of initialisations.
- Opening the `ofstream`, the text layout of the header and records, and any exception thrown while writing are left out. The report is the `Log` value.
- Concurrency between the timer thread and the profiled or destroying thread is left out. Ticks and the destructor are sequential method calls.
- Profiler.Process.RecordEip: requires a running timer, because the callback is only ever invoked by the timer.
- Profiler.Process.Destroy: requires exactly one instance. `Profiler` declares no copy constructor or copy assignment (Profiler.h:4-27), so a copy made with the implicit copy constructor is destroyed as well. That second destruction writes a second, empty report, and `--instanceCount` (Profiler.cpp:66) wraps from 0 to 4294967295, after which every construction throws (Profiler.cpp:52). The model has no copies and does not capture this double destruction or the wrap.
- Profiler.Process.NewProfiler, Profiler.Process.NewProfilerAsWritten: the source stores the caller's `const char *` in `logFile` rather than a copy of the string (Profiler.cpp:43), and reads it only when the report is opened in the destructor (Profiler.cpp:94). If the caller's buffer changes before destruction the report goes to the new path, and if it is freed the read is undefined. The model records the file name as a value at construction, so the report path is the one given to the constructor.
- Profiler.Process.StopTimer: `DeleteTimerQueueTimer` is called with a NULL completion event (Profiler.cpp:62), so it does not wait for a `record_eip` already running; such a tick can still update `eipLocations` while `generate_log` reads it or after `clear()`. The model treats the deletion as immediate and ticks as sequential.
- Profiler.BuildLog: requires every raw count to be at least 1, which `RecordEip` keeps (`Process.Valid`).
- Report.CpuUsage: does not model the 32-bit unsigned wrap-around of `count * 100`, which could only occur beyond about 42 million samples of one function.
- Aggregation.FoldSamples: does not model 32-bit wrap-around of the totals and hit counts, which would need more than 4 billion samples. The counts are unbounded naturals.
- Profiler.Process.NewProfiler: does not model 32-bit wrap-around of `instanceCount`; without copies (see the `Destroy` line) it stays at most 1.
- The narrowing of the 64-bit `symbol->Address` to a 32-bit `DWORD` key is left out. A symbol's entry is already a 32-bit address.
- Ranking.SortByMaxSamples: promises only what `std::sort` promises, which is sorted order and a permutation. The introsort algorithm and its order of equal elements are left out; a selection sort stands in.
- The `mainThread` handle is never closed by the code, and the model has no handle lifetime.

## Findings

| source | as written | input that shows it | evidently intended | confidence | as-written member | corrected member |
|---|---|---|---|---|---|---|
| Profiler.cpp:62, Profiler.cpp:72-82 | `init_profiler` opens the thread and creates the timer only on its first call in the process, because of a function-local static flag. The destructor deletes the timer at every destruction. | Construct a profiler on thread 1, destroy it, then construct one on thread 2. No timer exists, so the second profiler never samples, its table stays empty and its report has 0 total samples. The thread handle also still names thread 1. | Every construction starts its own timer on the constructing thread, as the destructor's clean-up "so it can be reused" implies. | high, not executed | Profiler.SecondSessionAsWritten | Profiler.SecondSession |
