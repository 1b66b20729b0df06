# Flyte plugins: phases, array reconciliation and BigQuery status — a Dafny model

This project models three pieces of the Flyte plugin machinery and proves properties about them.

- **Task phases** (`Phases`, in `phases.dfy`).
  - The nine task phases are codes 0..8.
  - Their names are slices of one packed string, cut by an offset table.
  - The model covers `String`, the parser `PhaseString`, `PhaseValues` and `IsAPhase`.
- **One reconciliation round of an AWS Batch array job** (`BatchMonitor`, in `monitor.dfy`).
  - `CheckSubTasksState` folds the phases of the N executed children into the parent array state:
    - terminal children are carried forward;
    - the others take the phase their sub-job reports;
    - failure messages are collected;
    - the compact phase array and the per-phase summary are rebuilt;
    - the parent phase, phase version and reason are set.
  - If the job store does not track the execution, the round registers the execution and returns the state unchanged.
  - `calculateOriginalIndex` maps a compacted child index back to its original position: it finds the c-th unset bit of the cache bitset.
  - The objects the round changes in place are classes:
    - the array job's `State`;
    - the `JobStore`;
    - the `ArrayStatus` being built, which holds an `array` of phases and a count map.
  - `CheckSubTasksState` is proved against the pure function `Reconcile`, and the properties of a round are lemmas about that function. The loop methods `ReconcileChild` and `ReconcileChildren` are proved against the functions `Reconcile` is built from (`ChildPhase`, `Reconciled`, `Histogram`, `Collected`). The `JobStore` and `ArrayStatus` methods state their new map, array and summary.
- **BigQuery status classification** (`BigQuery`, in `bigquery.dfy`).
  - `Status`, `handleCreateError` and `handleErrorResult` map three inputs to a task phase: the job's state, the HTTP error of a failed job creation, or the reason code of a finished job's error result.
  - Each of those failures also carries an error kind (user or system) and an error code.
  - `formatJobReference` renders a job reference.
- **Go's `%d` rendering of integers** (`Decimal`, in `decimal.dfy`). It comes with a parser and the round trip between the two, used where the source formats numbers. `Wrappers` holds `Option`.

The helpers that the round calls from packages outside these files are parameters. They are bundled in the `Collaborators` datatype:
- the terminal and failure tests on phases;
- `SummaryToPhase`;
- the error collector's `Summary`.

Two facts about the round that are easy to misread:
- **The threshold.** `Threshold` is `minSuccesses - originalArraySize - N`, exactly as monitor.go line 89 computes it. It is not `minSuccesses - (originalArraySize - N)`; the two differ by 2N.
- **The reason.** A round is not idempotent in every field. A second round over the same sub-jobs keeps the compact array, summary, phase and version (`ReconcileStable`). It does not in general keep the reason: the children that failed in the first round are terminal in the second, so they are no longer collected. When every failure phase is terminal, the second round collects no message at all (`SecondRoundCollectsNothing`).

`PhaseName` is the same 145-character string as `_PhaseName`. It is written as the concatenation of its nine names so that every position can be read by the verifier.

## Model

| member | source | states |
|---|---|---|
| Phases.PhaseIndexWellFormed | go/tasks/pluginmachinery/core/phase_enumer.go:10-12 | The offset table has 10 entries, starts at 0, rises strictly and ends at 145, the length of the packed name string. |
| Phases.PhaseNameSlices | go/tasks/pluginmachinery/core/phase_enumer.go:10-12 | Slice i of the packed string, between offsets i and i+1, is the i-th canonical name, from `PhaseUndefined` to `PhasePermanentFailure`. |
| Phases.NameMapAgrees | go/tasks/pluginmachinery/core/phase_enumer.go:23-33 | The name-to-value map sends each canonical name to its own code and holds no other key. |
| Phases.NamesDistinct | go/tasks/pluginmachinery/core/phase_enumer.go:23-33 | The nine names are pairwise distinct, so the name map is injective. |
| Phases.String | go/tasks/pluginmachinery/core/phase_enumer.go:14-19 | A code in 0..8 renders as its canonical name; any other integer renders as `Phase(<decimal>)`. |
| Phases.PhaseString | go/tasks/pluginmachinery/core/phase_enumer.go:37-42 | Parsing succeeds exactly on the nine names and returns the code whose name it is. On any other string it returns 0 and the error `<s> does not belong to Phase values`. |
| Phases.PhaseValues | go/tasks/pluginmachinery/core/phase_enumer.go:45-47 | The value list has nine entries and entry k is k, so it is 0..8 in ascending order. |
| Phases.IsAPhase | go/tasks/pluginmachinery/core/phase_enumer.go:50-57 | The linear search answers true iff 0 <= i <= 8, which is iff i occurs in the value list. |
| Phases.StringThenParse | go/tasks/pluginmachinery/core/phase_enumer.go:37-40 | Round trip: parsing the name of any code 0..8 gives back that code and no error. |
| Phases.ParseThenString | go/tasks/pluginmachinery/core/phase_enumer.go:37-40 | Round trip the other way: a string that parses is the rendering of the code it parses to. |
| Phases.OutOfRangeNameRejected | go/tasks/pluginmachinery/core/phase_enumer.go:41 | The fallback rendering `Phase(<i>)` of an out-of-range integer never parses: it gives 0 and the error. |
| Phases.StringInjective | go/tasks/pluginmachinery/core/phase_enumer.go:14-19 | Distinct integers render differently, in range or not. |
| Decimal.NatToStringDigits | go/tasks/pluginmachinery/core/phase_enumer.go:16 | The `%d` rendering of a natural number is a non-empty string of decimal digits whose value is the number. |
| Decimal.IntToStringRoundTrip | go/tasks/pluginmachinery/core/phase_enumer.go:16 | Parsing the `%d` rendering of any integer, negative ones included, gives the integer back. |
| Decimal.IntToStringInjective | go/tasks/pluginmachinery/core/phase_enumer.go:16 | Distinct integers have distinct `%d` renderings. |
| BigQuery.CreateTaskInfo | go/tasks/plugins/webapi/bigquery/plugin.go:440-455 | The returned `TaskInfo` holds the given time and exactly one log, whose name is `BigQuery Console`. Its URI is the console URL with the project id and `j=bq:<location>:<job id>`. |
| BigQuery.ConsoleUriIdentifiesJob | go/tasks/plugins/webapi/bigquery/plugin.go:442-450 | The console link names the job it was made for. Stripping the console prefix and suffix, then splitting at the first `&j=bq:` and the first colon after it, gives back the project id, location and job id, when the project id holds no `&` and the location no colon. |
| BigQuery.HandleCreateError | go/tasks/plugins/webapi/bigquery/plugin.go:292-317 | No Go error is ever returned. The code is `http<code>` and the message is passed through. By code range: 400..499 is a permanent user failure, 500 and up a retryable system failure, and below 400 a permanent system failure. |
| BigQuery.CreateErrorCodeRecoverable | go/tasks/plugins/webapi/bigquery/plugin.go:293 | The error code of a creation failure is `http` followed by a rendering that parses back to the HTTP status. |
| BigQuery.HandleErrorResult | go/tasks/plugins/webapi/bigquery/plugin.go:319-438 | An empty reason is success. Any other reason is a failure whose code is the reason and whose message is passed through. It is retryable iff the reason is one of the seven transient reasons, and permanent otherwise, unknown reasons included. The error kind is user iff the reason is one of the fourteen user reasons, so `quotaExceeded` and `rateLimitExceeded` are retryable user errors and unknown reasons are system errors. |
| BigQuery.Status | go/tasks/plugins/webapi/bigquery/plugin.go:256-290 | A missing resource is Undefined with no error. A creation error is classified by `HandleCreateError` before the job state is looked at. |
| BigQuery.StatusByJobState | go/tasks/plugins/webapi/bigquery/plugin.go:271-287 | PENDING and RUNNING are Running at the default version. DONE without an error result is Success. DONE with one is what `HandleErrorResult` makes of its reason and message. |
| BigQuery.StatusErrorIffUnknownState | go/tasks/plugins/webapi/bigquery/plugin.go:271-289 | `Status` returns an error of its own iff the job state is none of PENDING, RUNNING and DONE. That error has code `SystemError` and comes with the Undefined phase. |
| BigQuery.StatusFailuresCarryErrors | go/tasks/plugins/webapi/bigquery/plugin.go:256-317 | Every answer of `Status` is Undefined, Running, Success, RetryableFailure or PermanentFailure. It carries an execution error iff it is one of the two failures. |
| BigQuery.FormatJobReference | go/tasks/plugins/webapi/bigquery/plugin.go:457-459 | The rendering is the project id, then `:`, then the location, then `.`, then the job id, and nothing else. |
| BigQuery.FormatJobReferenceRoundTrip | go/tasks/plugins/webapi/bigquery/plugin.go:457-459 | `<project>:<location>.<job>` can be split back into the reference it came from, when the project holds no colon and the location no dot. |
| BatchMonitor.JobStore.Get | go/tasks/plugins/array/awsbatch/monitor.go:33 | The lookup finds a job iff the name is tracked, and then it is the tracked job. |
| BatchMonitor.JobStore.GetOrCreate | go/tasks/plugins/array/awsbatch/monitor.go:36-40 | A tracked name leaves the store unchanged and returns its job. An untracked name maps to the new job, with nothing else changed. |
| BatchMonitor.FreshJob | go/tasks/plugins/array/awsbatch/monitor.go:36-40 | The job registered for an untracked execution has the external job id, the owner and N empty sub-job slots. |
| BatchMonitor.ArrayStatus.constructor | go/tasks/plugins/array/awsbatch/monitor.go:27-30 | A new array status has an empty summary and a fresh array of N phases, all Undefined. |
| BatchMonitor.ArrayStatus.SetItem | go/tasks/plugins/array/awsbatch/monitor.go:55 | Setting a child's phase changes that slot of the array and no other. |
| BatchMonitor.ArrayStatus.Inc | go/tasks/plugins/array/awsbatch/monitor.go:54 | Incrementing a phase adds one to its count and leaves every other count unchanged. |
| BatchMonitor.HistogramCount | go/tasks/plugins/array/awsbatch/monitor.go:49-85 | The summary built by incrementing once per child counts each phase exactly as often as it occurs in the phase array. |
| BatchMonitor.HistogramTotal | go/tasks/plugins/array/awsbatch/monitor.go:49-85 | The counts of that summary add up to the number of children. |
| BatchMonitor.HistogramWeighted | go/tasks/plugins/array/awsbatch/monitor.go:99-101 | Summing `phase * count` over the summary is the same as summing the phase codes of the children. |
| BatchMonitor.AddWeighted | go/tasks/plugins/array/awsbatch/monitor.go:100 | One version step in `uint32`, where the casts, the product and the sum all wrap, equals `(v + phase * count) mod 2^32`. |
| BatchMonitor.PhaseVersionOf | go/tasks/plugins/array/awsbatch/monitor.go:96-102 | The version loop over the summary ends with the sum of `phase * count`, reduced mod 2^32. |
| BatchMonitor.CalculateOriginalIndex | go/tasks/plugins/array/awsbatch/monitor.go:114-127 | It returns -1 iff c < 0 or the bitset has at most c unset bits. Otherwise it returns a position p with c <= p < Cap, bit p unset and exactly c unset bits below p. |
| BatchMonitor.RankSelectUnique | go/tasks/plugins/array/awsbatch/monitor.go:114-124 | At most one unset position has exactly c unset bits below it, so the position found is also the least such position. |
| BatchMonitor.OriginalIndexExample | go/tasks/plugins/array/awsbatch/monitor.go:114-127 | With five positions of which 1 and 3 are cached, children 0, 1 and 2 map to positions 0, 2 and 4. Child 3 maps to -1 because the bitset, modelled as a `seq<bool>`, has `Cap()` 5. |
| BatchMonitor.Reconciled | go/tasks/plugins/array/awsbatch/monitor.go:49-85 | The new compact array has one entry per child. A terminal child keeps its phase; any other child takes its sub-job's phase. |
| BatchMonitor.CollectedEntries | go/tasks/plugins/array/awsbatch/monitor.go:77-81 | A message is collected iff its child was not terminal before the round, its sub-job's phase is a failure and its message is non-empty. The entry holds that child's index and message, and the entries come in increasing index order. |
| BatchMonitor.Threshold | go/tasks/plugins/array/awsbatch/monitor.go:89 | The threshold handed to `SummaryToPhase` is `minSuccesses - originalArraySize - N`, as the code computes it. That is 2N below `minSuccesses - (originalArraySize - N)`. |
| BatchMonitor.Reconcile | go/tasks/plugins/array/awsbatch/monitor.go:87-107 | The sizes, the cache bitset and the original counts are unchanged. The phase is `SummaryToPhase` of the code's threshold and the new summary. The reason changes only when that phase is PermanentFailure or RetryableFailure. |
| BatchMonitor.ReconcileSummaryAgrees | go/tasks/plugins/array/awsbatch/monitor.go:49-87 | After a round, the summary counts each phase as often as it occurs in the new compact array, and its counts add up to the execution array size. |
| BatchMonitor.ReconcileVersion | go/tasks/plugins/array/awsbatch/monitor.go:95-107 | While the aggregate phase is CheckingSubTaskExecutions, the version is the sum of the children's phase codes mod 2^32. Otherwise it is the default phase version. |
| BatchMonitor.ReconciledIdempotent | go/tasks/plugins/array/awsbatch/monitor.go:49-85 | Reconciling the new compact array again against the same sub-jobs changes nothing. |
| BatchMonitor.ReconcileStable | go/tasks/plugins/array/awsbatch/monitor.go:49-107 | A second round over the same sub-jobs keeps the compact array, the summary, the phase and the version. |
| BatchMonitor.SecondRoundCollectsNothing | go/tasks/plugins/array/awsbatch/monitor.go:77-81 | When every failure phase is terminal, a second round over the same sub-jobs collects no message. |
| BatchMonitor.ReconcileIgnoresTerminalSubJobs | go/tasks/plugins/array/awsbatch/monitor.go:49-61 | The sub-job of an already terminal child is never read: two jobs whose sub-jobs agree on the other children give the same new state. |
| BatchMonitor.ReconcileChild | go/tasks/plugins/array/awsbatch/monitor.go:50-84 | One pass of the loop sets the child's slot to its new phase, leaving the other slots unchanged. It increments that phase's count in the summary, and appends the child's message iff the child reports one. |
| BatchMonitor.ReconcileChildren | go/tasks/plugins/array/awsbatch/monitor.go:49-85 | The loop over the children fills a fresh array with exactly `Reconciled` and the summary with exactly its histogram, and collects exactly the messages of `CollectedEntries`. |
| BatchMonitor.CheckSubTasksState | go/tasks/plugins/array/awsbatch/monitor.go:19-111 | The returned state is `currentState` itself, and its external job id is unchanged. For an untracked execution, exactly one fresh job is inserted in the store and the array state is unchanged. For a tracked one, the store is unchanged and the array state becomes `Reconcile` of the old state and the tracked job. |

## Left out

- Log links of a round are not modelled: `GetJobUri`, `LogStreamFormatter`, the account and region lookups, and the `Attempts` of a sub-job. Their only use is the `logLinks` slice, which is built but never stored in the returned state. `calculateOriginalIndex` is still called for each non-terminal child, and its result is discarded as in the source.
- The error returned by `JobStore.GetOrCreate`: the model's store cannot fail. The store's concurrency, its atomic insert, its LRU eviction and its asynchronous refresh are not modelled either; the store is a plain map.
- `SummaryToPhase`, `IsTerminal`, `IsFailure` and the error collector's `Summary` come from packages that are not part of this model. They are parameters, so no property depends on their bodies.
- The bitset is modelled as a `seq<bool>` whose length is its `Cap()`. The `bitarray` package is not part of this model.
- CheckSubTasksState: requires `WellSized`, that is, the stored compact array holds exactly N entries. The source loops over whatever items are stored into a fresh array of size N (monitor.go lines 29 and 49). A shorter stored array would leave trailing Undefined slots and a summary that counts fewer than N children. That case is not modelled.
- CheckSubTasksState: the stored items are phase codes 0..8, and `core.Phases[existingPhaseIdx]` is taken as the identity on them. `core.Phases` is declared in a file that is not part of this model, and an item of 9 or more would panic there.
- CheckSubTasksState: requires that every non-terminal child has a sub-job. The Go code dereferences the slot unchecked and would panic on a nil one. The external job id is a string, so the nil dereference of `ExternalJobID` is not modelled either.
- Threshold: computed with unbounded integers, so the `int64` overflow of the subtraction is not modelled.
- The state setters `SetArrayStatus`, `SetReason` and `SetPhase` are field updates of the array-state value.
- PhaseVersionOf: the Go loop ranges over the summary map in an unspecified order. The model visits the codes in ascending order. The result is the same in `uint32` arithmetic, because addition mod 2^32 is commutative.
- Phase codes are integers. The width of Go's `Phase` type is not part of this model. `DefaultPhaseVersion` is taken as 0 and `SystemErrorCode` as `SystemError`; both are declared in files that are not part of this model.
- Status: requires `StatusReadable`, that is, a resource without a creation error carries a job status. The source reads `resource.Status.State` unchecked (plugin.go line 271) and would panic on a nil status.
- PhaseInfoUndefined, PhaseInfoRunning, PhaseInfoSuccess and PhaseInfoFailed: these constructors of pluginmachinery/core are declared in files that are not part of this model. Their bodies here are inferred from their names and uses: the given phase, the default version unless one is given, the error for failures only, and the task info.
- CreateTaskInfo: takes the time as a parameter instead of reading the clock.
- The network side of the BigQuery plugin is not modelled: `Create`/`createImpl`, `Get`/`getImpl`, `Delete`, `createQueryJob`, `newBigQueryClient`, `NewPlugin` and the plugin registration. These are calls to the BigQuery REST API, the Google token source and the registry.
- The other files of the repository are out of scope: declarative configuration, generated flag tests, Kubernetes decoration tests, credential acquisition and an interface declaration.
