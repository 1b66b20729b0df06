/**
 * One reconciliation round of an AWS Batch array job
 * (go/tasks/plugins/array/awsbatch/monitor.go). The round folds the phases
 * of the N children of an array job into one parent state: children that
 * already reached a terminal phase are carried forward, the others take the
 * phase their sub-job reports, failure messages are collected, the compact
 * phase array and the per-phase summary are rebuilt, and the parent phase,
 * phase version and reason are set.
 *
 * The helpers the round calls from packages outside this file (the
 * terminal and failure tests on phases, `SummaryToPhase`, the error
 * collector's summary) are supplied as function values in `Collaborators`.
 */
module BatchMonitor {
  import opened Wrappers
  import opened Phases

  const Uint32Modulus: nat := 0x1_0000_0000

  /** Go's `uint32`. */
  type Uint32 = x: int | 0 <= x < 0x1_0000_0000

  // ---------------------------------------------------------------------
  // Data model
  // ---------------------------------------------------------------------

  /** The owner of a task execution (`types.NamespacedName`). */
  datatype OwnerId = OwnerId(namespace: string, name: string)

  /** What the round reads of `core.TaskExecutionMetadata`. */
  datatype TaskMeta = TaskMeta(generatedName: string, ownerId: OwnerId)

  /** What the round reads of the plugin configuration. */
  datatype Config = Config(maxErrorStringLength: int)

  /** The phase and message the poller last saw for a job. */
  datatype JobPhaseInfo = JobPhaseInfo(phase: PhaseCode, message: string)

  /** A tracked batch job; every child of an array job is a sub-job slot, empty until the poller fills it. */
  datatype Job = Job(id: string, ownerReference: OwnerId, status: JobPhaseInfo, subJobs: seq<Option<Job>>)

  /** The phases of an array task that the round tells apart (arrayCore.Phase); any other is carried by name. */
  datatype ArrayPhase =
    | CheckingSubTaskExecutions
    | RetryableFailure
    | PermanentFailure
    | OtherArrayPhase(name: string)

  /** `arraystatus.ArraySummary`: how many children are in each phase. */
  type ArraySummary = map<PhaseCode, nat>

  /** `arraystatus.ArrayStatus` as it is stored in the persisted state. */
  datatype ArrayStatusValue = ArrayStatusValue(summary: ArraySummary, detailed: seq<PhaseCode>)

  /** `arrayCore.State`: the persisted state of the array task. */
  datatype ArrayState = ArrayState(
    currentPhase: ArrayPhase,
    phaseVersion: Uint32,
    reason: string,
    arrayStatus: ArrayStatusValue,
    executionArraySize: nat,
    originalArraySize: int,
    originalMinSuccesses: int,
    indexesToCache: seq<bool>)
  {
    /** The compact phase array holds one phase per executed child. */
    predicate WellSized() {
      |arrayStatus.detailed| == executionArraySize
    }
  }

  /** One collected failure message (`errorcollector.ErrorMessageCollector.Collect`). */
  datatype ErrorEntry = ErrorEntry(index: nat, message: string)

  /** The helpers from other packages that the round calls. */
  datatype Collaborators = Collaborators(
    isTerminal: PhaseCode -> bool,
    isFailure: PhaseCode -> bool,
    summaryToPhase: (int, ArraySummary) -> ArrayPhase,
    summarize: (seq<ErrorEntry>, int) -> string)

  // ---------------------------------------------------------------------
  // Classes: the objects the round updates in place
  // ---------------------------------------------------------------------

  /** The AWS Batch task state: the array state and the id of the external job. */
  class State {
    var state: ArrayState
    var externalJobId: string

    constructor (state: ArrayState, externalJobId: string)
      ensures this.state == state && this.externalJobId == externalJobId
    {
      this.state := state;
      this.externalJobId := externalJobId;
    }
  }

  /** `JobStore`, reduced to the map from generated execution names to tracked jobs. */
  class JobStore {
    var jobs: map<string, Job>

    constructor ()
      ensures jobs == map[]
    {
      jobs := map[];
    }

    /** `JobStore.Get`: the job tracked under `name`, if any. */
    function Get(name: string): (r: Option<Job>)
      reads this
      ensures r.Some? <==> name in jobs
      ensures r.Some? ==> r.value == jobs[name]
    {
      if name in jobs then Some(jobs[name]) else None
    }

    /** `JobStore.GetOrCreate`: the job tracked under `name`, inserting `job` first if there is none. */
    method GetOrCreate(name: string, job: Job) returns (r: Job)
      modifies this
      ensures name in old(jobs) ==> jobs == old(jobs) && r == old(jobs)[name]
      ensures name !in old(jobs) ==> jobs == old(jobs)[name := job] && r == job
    {
      if name in jobs {
        r := jobs[name];
      } else {
        jobs := jobs[name := job];
        r := job;
      }
    }
  }

  /** `arraystatus.ArrayStatus` while the round builds it: a compact phase array and a summary. */
  class ArrayStatus {
    var summary: ArraySummary
    const detailed: array<PhaseCode>

    /** `NewPhasesCompactArray(size)` with an empty summary: every child starts Undefined. */
    constructor (size: nat)
      ensures summary == map[] && fresh(detailed) && detailed.Length == size
      ensures forall i :: 0 <= i < size ==> detailed[i] == PhaseUndefined
    {
      summary := map[];
      detailed := new PhaseCode[size](_ => PhaseUndefined);
    }

    /** `Detailed.SetItem`. */
    method SetItem(i: nat, p: PhaseCode)
      requires i < detailed.Length
      modifies detailed
      ensures detailed[i] == p
      ensures forall k :: 0 <= k < detailed.Length && k != i ==> detailed[k] == old(detailed[k])
    {
      detailed[i] := p;
    }

    /** `Summary.Inc`. */
    method Inc(p: PhaseCode)
      modifies this`summary
      ensures summary == Increment(old(summary), p)
    {
      summary := Increment(summary, p);
    }
  }

  // ---------------------------------------------------------------------
  // Summaries
  // ---------------------------------------------------------------------

  /** The count of phase `p`; a phase never incremented counts 0. */
  function Count(m: ArraySummary, p: PhaseCode): nat {
    if p in m then m[p] else 0
  }

  /** The summary with one more child in phase `p`. */
  function Increment(m: ArraySummary, p: PhaseCode): (r: ArraySummary)
    ensures Count(r, p) == Count(m, p) + 1
    ensures forall q :: q != p ==> Count(r, q) == Count(m, q)
  {
    m[p := Count(m, p) + 1]
  }

  /** The summary of a phase array: each child incremented once, in index order. */
  function Histogram(s: seq<PhaseCode>): ArraySummary {
    if s == [] then map[] else Increment(Histogram(s[..|s| - 1]), s[|s| - 1])
  }

  /** The number of children in the phases below `n`. */
  function CountBelow(m: ArraySummary, n: nat): nat
    requires n <= PhaseCount
  {
    if n == 0 then 0 else CountBelow(m, n - 1) + Count(m, n - 1)
  }

  /** The number of children the summary accounts for. */
  function Total(m: ArraySummary): nat {
    CountBelow(m, PhaseCount)
  }

  /** The sum of `code * count` over the phases below `n`. */
  function WeightedBelow(m: ArraySummary, n: nat): nat
    requires n <= PhaseCount
  {
    if n == 0 then 0 else WeightedBelow(m, n - 1) + (n - 1) * Count(m, n - 1)
  }

  /** The sum of `code * count` over all phases, with no wrap-around. */
  function WeightedSum(m: ArraySummary): nat {
    WeightedBelow(m, PhaseCount)
  }

  /** Each occurrence of a phase in the array is counted once in its summary, and nothing else is. */
  lemma {:induction false} HistogramCount(s: seq<PhaseCode>, p: PhaseCode)
    ensures Count(Histogram(s), p) == multiset(s)[p]
  {
    if s != [] {
      var init, last := s[..|s| - 1], s[|s| - 1];
      assert s == init + [last];
      HistogramCount(init, p);
    }
  }

  lemma HistogramStep(s: seq<PhaseCode>, k: nat)
    requires k < |s|
    ensures Histogram(s[..k + 1]) == Increment(Histogram(s[..k]), s[k])
  {
    assert s[..k + 1][..k] == s[..k];
  }

  lemma {:induction false} CountBelowIncrement(m: ArraySummary, p: PhaseCode, n: nat)
    requires n <= PhaseCount
    ensures CountBelow(Increment(m, p), n) == CountBelow(m, n) + (if p < n then 1 else 0)
  {
    if n > 0 {
      CountBelowIncrement(m, p, n - 1);
    }
  }

  lemma {:induction false} CountBelowEmpty(n: nat)
    requires n <= PhaseCount
    ensures CountBelow(map[], n) == 0
  {
    if n > 0 {
      CountBelowEmpty(n - 1);
    }
  }

  /** The counts of a summary add up to the number of children summarised. */
  lemma {:induction false} HistogramTotal(s: seq<PhaseCode>)
    ensures Total(Histogram(s)) == |s|
  {
    if s != [] {
      var init, last := s[..|s| - 1], s[|s| - 1];
      HistogramTotal(init);
      CountBelowIncrement(Histogram(init), last, PhaseCount);
      assert last < PhaseCount;
      assert Histogram(s) == Increment(Histogram(init), last);
    } else {
      CountBelowEmpty(PhaseCount);
    }
  }

  /** The sum of the phase codes of an array, with no wrap-around. */
  function SumCodes(s: seq<PhaseCode>): nat {
    if s == [] then 0 else SumCodes(s[..|s| - 1]) + s[|s| - 1]
  }

  lemma {:induction false} WeightedBelowIncrement(m: ArraySummary, p: PhaseCode, n: nat)
    requires n <= PhaseCount
    ensures WeightedBelow(Increment(m, p), n) == WeightedBelow(m, n) + (if p < n then p else 0)
  {
    if n > 0 {
      WeightedBelowIncrement(m, p, n - 1);
      var c, c' := Count(m, n - 1), Count(Increment(m, p), n - 1);
      if p == n - 1 {
        assert c' == c + 1;
        assert (n - 1) * c' == (n - 1) * c + (n - 1);
      } else {
        assert c' == c;
      }
    }
  }

  lemma {:induction false} WeightedBelowEmpty(n: nat)
    requires n <= PhaseCount
    ensures WeightedBelow(map[], n) == 0
  {
    if n > 0 {
      WeightedBelowEmpty(n - 1);
    }
  }

  /** Summing `code * count` over the summary is summing the codes of the children. */
  lemma {:induction false} HistogramWeighted(s: seq<PhaseCode>)
    ensures WeightedSum(Histogram(s)) == SumCodes(s)
  {
    if s != [] {
      var init, last := s[..|s| - 1], s[|s| - 1];
      HistogramWeighted(init);
      WeightedBelowIncrement(Histogram(init), last, PhaseCount);
      assert last < PhaseCount;
      assert Histogram(s) == Increment(Histogram(init), last);
    } else {
      WeightedBelowEmpty(PhaseCount);
    }
  }

  // ---------------------------------------------------------------------
  // The phase version and its uint32 arithmetic
  // ---------------------------------------------------------------------

  lemma ModAdd(x: int, y: int)
    ensures (x % Uint32Modulus + y % Uint32Modulus) % Uint32Modulus == (x + y) % Uint32Modulus
  {
  }

  lemma ModAddLeft(x: int, y: int)
    ensures (x % Uint32Modulus + y) % Uint32Modulus == (x + y) % Uint32Modulus
  {
  }

  lemma ModMulRight(p: nat, c: nat)
    ensures (p * (c % Uint32Modulus)) % Uint32Modulus == (p * c) % Uint32Modulus
  {
    var q, r := c / Uint32Modulus, c % Uint32Modulus;
    assert c == q * Uint32Modulus + r;
    assert p * c == (p * q) * Uint32Modulus + p * r;
  }

  /**
   * The version step of the round: `v += uint32(phase) * uint32(count)` in
   * uint32 arithmetic, where the product and the sum both wrap around.
   */
  function AddWeighted(v: Uint32, p: PhaseCode, count: nat): (r: Uint32)
    ensures r == (v + p * count) % Uint32Modulus
  {
    ModMulRight(p, count);
    ModAdd(v, p * count);
    (v + (p * (count % Uint32Modulus)) % Uint32Modulus) % Uint32Modulus
  }

  /** The version of a still-running array: the weighted sum of its summary, reduced to 32 bits. */
  method PhaseVersionOf(summary: ArraySummary) returns (version: Uint32)
    ensures version == WeightedSum(summary) % Uint32Modulus
  {
    version := 0;
    for p := 0 to PhaseCount
      invariant version == WeightedBelow(summary, p) % Uint32Modulus
    {
      if p in summary {
        ModAddLeft(WeightedBelow(summary, p), p * summary[p]);
        version := AddWeighted(version, p, summary[p]);
      }
    }
  }

  // ---------------------------------------------------------------------
  // Rank/select over the cache bitset
  // ---------------------------------------------------------------------

  /** The number of unset bits in `bits`. */
  function CountUnset(bits: seq<bool>): nat {
    if bits == [] then 0 else CountUnset(bits[..|bits| - 1]) + (if bits[|bits| - 1] then 0 else 1)
  }

  lemma {:induction false} CountUnsetPrefix(bits: seq<bool>, i: nat)
    requires i <= |bits|
    ensures CountUnset(bits[..i]) <= CountUnset(bits)
  {
    if i < |bits| {
      CountUnsetPrefix(bits[..|bits| - 1], i);
      assert bits[..|bits| - 1][..i] == bits[..i];
    } else {
      assert bits[..i] == bits;
    }
  }

  lemma CountUnsetStep(bits: seq<bool>, i: nat)
    requires i < |bits|
    ensures CountUnset(bits[..i + 1]) == CountUnset(bits[..i]) + (if bits[i] then 0 else 1)
  {
    assert bits[..i + 1][..i] == bits[..i];
  }

  lemma {:induction false} CountUnsetMonotone(bits: seq<bool>, i: nat, j: nat)
    requires i <= j <= |bits|
    ensures CountUnset(bits[..i]) <= CountUnset(bits[..j])
  {
    CountUnsetPrefix(bits[..j], i);
    assert bits[..j][..i] == bits[..i];
  }

  /**
   * At most one unset bit has exactly `c` unset bits before it, so the
   * position `calculateOriginalIndex` finds is also the least such position.
   */
  lemma RankSelectUnique(bits: seq<bool>, c: nat, i: nat, j: nat)
    requires i < |bits| && j < |bits| && !bits[i] && !bits[j]
    requires CountUnset(bits[..i]) == c && CountUnset(bits[..j]) == c
    ensures i == j
  {
    if i < j {
      CountUnsetStep(bits, i);
      CountUnsetMonotone(bits, i + 1, j);
    } else if j < i {
      CountUnsetStep(bits, j);
      CountUnsetMonotone(bits, j + 1, i);
    }
  }

  /**
   * `calculateOriginalIndex`: the position in the original array of compacted
   * child `childIdx`, that is, of the unset bit with exactly `childIdx` unset
   * bits before it; -1 when there are not that many unset bits.
   */
  method CalculateOriginalIndex(childIdx: int, toCache: seq<bool>) returns (r: int)
    ensures r == -1 <==> childIdx < 0 || CountUnset(toCache) <= childIdx
    ensures r != -1 ==> childIdx <= r < |toCache| && !toCache[r] && CountUnset(toCache[..r]) == childIdx
  {
    var sum := 0;
    for i := 0 to |toCache|
      invariant sum == CountUnset(toCache[..i])
      invariant childIdx < 0 || sum <= childIdx
      invariant sum <= i
    {
      CountUnsetStep(toCache, i);
      if !toCache[i] {
        if sum == childIdx {
          CountUnsetPrefix(toCache, i + 1);
          return i;
        }
        sum := sum + 1;
      }
    }
    assert toCache[..|toCache|] == toCache;
    return -1;
  }

  /**
   * Five original positions, of which 1 and 3 came from the cache: the
   * executed children 0, 1 and 2 ran at original positions 0, 2 and 4, and
   * there is no fourth executed child.
   */
  method OriginalIndexExample() returns (r0: int, r1: int, r2: int, r3: int)
    ensures r0 == 0 && r1 == 2 && r2 == 4 && r3 == -1
  {
    var bits := [false, true, false, true, false];
    assert bits[..0] == [];
    CountUnsetStep(bits, 0);
    CountUnsetStep(bits, 1);
    CountUnsetStep(bits, 2);
    CountUnsetStep(bits, 3);
    CountUnsetStep(bits, 4);
    assert bits[..5] == bits;
    r0 := CalculateOriginalIndex(0, bits);
    RankSelectUnique(bits, 0, r0, 0);
    r1 := CalculateOriginalIndex(1, bits);
    RankSelectUnique(bits, 1, r1, 2);
    r2 := CalculateOriginalIndex(2, bits);
    RankSelectUnique(bits, 2, r2, 4);
    r3 := CalculateOriginalIndex(3, bits);
  }

  // ---------------------------------------------------------------------
  // What a round computes
  // ---------------------------------------------------------------------

  /** Every child that is not terminal has a sub-job to read (the round dereferences it). */
  predicate SubJobsReady(existing: seq<PhaseCode>, subJobs: seq<Option<Job>>, isTerminal: PhaseCode -> bool) {
    forall i :: 0 <= i < |existing| && !isTerminal(existing[i]) ==> i < |subJobs| && subJobs[i].Some?
  }

  /** The new phase of child `i`: kept if terminal, otherwise what its sub-job reports. */
  function ChildPhase(existing: seq<PhaseCode>, subJobs: seq<Option<Job>>, isTerminal: PhaseCode -> bool, i: nat): PhaseCode
    requires i < |existing| && SubJobsReady(existing, subJobs, isTerminal)
  {
    if isTerminal(existing[i]) then existing[i] else subJobs[i].value.status.phase
  }

  /** The new compact phase array. */
  function Reconciled(existing: seq<PhaseCode>, subJobs: seq<Option<Job>>, isTerminal: PhaseCode -> bool): (r: seq<PhaseCode>)
    requires SubJobsReady(existing, subJobs, isTerminal)
    ensures |r| == |existing|
    ensures forall i :: 0 <= i < |r| && isTerminal(existing[i]) ==> r[i] == existing[i]
    ensures forall i :: 0 <= i < |r| && !isTerminal(existing[i]) ==> r[i] == subJobs[i].value.status.phase
  {
    seq(|existing|, i requires 0 <= i < |existing| => ChildPhase(existing, subJobs, isTerminal, i))
  }

  /** Child `i` contributes a message: not terminal before the round, failed now, with a non-empty message. */
  predicate Reports(existing: seq<PhaseCode>, subJobs: seq<Option<Job>>, env: Collaborators, i: nat)
    requires i < |existing| && SubJobsReady(existing, subJobs, env.isTerminal)
  {
    !env.isTerminal(existing[i]) && env.isFailure(subJobs[i].value.status.phase) &&
    |subJobs[i].value.status.message| > 0
  }

  /** The messages the round collects from the first `n` children, in index order. */
  function Collected(existing: seq<PhaseCode>, subJobs: seq<Option<Job>>, env: Collaborators, n: nat): seq<ErrorEntry>
    requires n <= |existing| && SubJobsReady(existing, subJobs, env.isTerminal)
  {
    if n == 0 then []
    else
      Collected(existing, subJobs, env, n - 1) +
      (if Reports(existing, subJobs, env, n - 1)
       then [ErrorEntry(n - 1, subJobs[n - 1].value.status.message)] else [])
  }

  /** The threshold the round hands to `SummaryToPhase`, computed as the source computes it. */
  function Threshold(s: ArrayState): (t: int)
    ensures t == s.originalMinSuccesses - s.originalArraySize - s.executionArraySize
    ensures t == s.originalMinSuccesses - (s.originalArraySize - s.executionArraySize) - 2 * s.executionArraySize
  {
    s.originalMinSuccesses - s.originalArraySize - s.executionArraySize
  }

  predicate IsFailurePhase(p: ArrayPhase) {
    p == PermanentFailure || p == RetryableFailure
  }

  /** The array state a round produces from `s` when the job store tracks `job`. */
  function Reconcile(s: ArrayState, job: Job, cfg: Config, env: Collaborators): (r: ArrayState)
    requires s.WellSized() && SubJobsReady(s.arrayStatus.detailed, job.subJobs, env.isTerminal)
    ensures r.WellSized()
    ensures r.executionArraySize == s.executionArraySize && r.indexesToCache == s.indexesToCache
    ensures r.originalArraySize == s.originalArraySize && r.originalMinSuccesses == s.originalMinSuccesses
    ensures r.currentPhase == env.summaryToPhase(Threshold(s), r.arrayStatus.summary)
    ensures IsFailurePhase(r.currentPhase) || r.reason == s.reason
  {
    var existing := s.arrayStatus.detailed;
    var detailed := Reconciled(existing, job.subJobs, env.isTerminal);
    var summary := Histogram(detailed);
    var phase := env.summaryToPhase(Threshold(s), summary);
    var reason :=
      if IsFailurePhase(phase)
      then env.summarize(Collected(existing, job.subJobs, env, |existing|), cfg.maxErrorStringLength)
      else s.reason;
    var version := if phase == CheckingSubTaskExecutions then WeightedSum(summary) % Uint32Modulus else DefaultPhaseVersion;
    s.(currentPhase := phase, phaseVersion := version, reason := reason,
       arrayStatus := ArrayStatusValue(summary, detailed))
  }

  // ---------------------------------------------------------------------
  // Properties of a round
  // ---------------------------------------------------------------------

  predicate IndicesIncreasing(c: seq<ErrorEntry>) {
    forall i, j :: 0 <= i < j < |c| ==> c[i].index < c[j].index
  }

  /**
   * The collector holds exactly one entry per reporting child among the
   * first `n`, carrying that child's index and sub-job message, in
   * increasing index order.
   */
  lemma {:induction false} CollectedEntries(existing: seq<PhaseCode>, subJobs: seq<Option<Job>>, env: Collaborators, n: nat)
    requires n <= |existing| && SubJobsReady(existing, subJobs, env.isTerminal)
    ensures forall e :: e in Collected(existing, subJobs, env, n) <==>
      e.index < n && Reports(existing, subJobs, env, e.index) &&
      e.message == subJobs[e.index].value.status.message
    ensures IndicesIncreasing(Collected(existing, subJobs, env, n))
  {
    if n > 0 {
      CollectedEntries(existing, subJobs, env, n - 1);
      var prev := Collected(existing, subJobs, env, n - 1);
      var last: seq<ErrorEntry> := if Reports(existing, subJobs, env, n - 1)
        then [ErrorEntry(n - 1, subJobs[n - 1].value.status.message)] else [];
      assert Collected(existing, subJobs, env, n) == prev + last;
      forall e: ErrorEntry
        ensures e in prev + last <==>
          (e.index < n && Reports(existing, subJobs, env, e.index) &&
           e.message == subJobs[e.index].value.status.message)
      {
        assert e in prev + last <==> e in prev || e in last;
        assert e in prev <==>
          (e.index < n - 1 && Reports(existing, subJobs, env, e.index) &&
           e.message == subJobs[e.index].value.status.message);
        if e.index == n - 1 {
          assert e in last <==>
            (Reports(existing, subJobs, env, n - 1) && e.message == subJobs[n - 1].value.status.message);
        } else {
          assert e !in last;
        }
      }
      forall i, j | 0 <= i < j < |prev + last|
        ensures (prev + last)[i].index < (prev + last)[j].index
      {
        if j < |prev| {
          assert (prev + last)[i] == prev[i] && (prev + last)[j] == prev[j];
        } else {
          assert (prev + last)[i] == prev[i] && prev[i] in prev;
          assert (prev + last)[j] == last[0];
          assert prev[i].index < n - 1;
        }
      }
    }
  }

  /** A round's summary counts exactly the phases of its compact array, which has one entry per child. */
  lemma ReconcileSummaryAgrees(s: ArrayState, job: Job, cfg: Config, env: Collaborators)
    requires s.WellSized() && SubJobsReady(s.arrayStatus.detailed, job.subJobs, env.isTerminal)
    ensures var r := Reconcile(s, job, cfg, env);
      Total(r.arrayStatus.summary) == s.executionArraySize &&
      forall p: PhaseCode :: Count(r.arrayStatus.summary, p) == multiset(r.arrayStatus.detailed)[p]
  {
    var detailed: seq<PhaseCode> := Reconcile(s, job, cfg, env).arrayStatus.detailed;
    HistogramTotal(detailed);
    forall p: PhaseCode
      ensures Count(Histogram(detailed), p) == multiset(detailed)[p]
    {
      HistogramCount(detailed, p);
    }
  }

  /**
   * While the array is still running, its phase version is the sum of the
   * phase codes of its children, wrapped to 32 bits; otherwise it is the
   * default version.
   */
  lemma ReconcileVersion(s: ArrayState, job: Job, cfg: Config, env: Collaborators)
    requires s.WellSized() && SubJobsReady(s.arrayStatus.detailed, job.subJobs, env.isTerminal)
    ensures var r := Reconcile(s, job, cfg, env);
      && (r.currentPhase == CheckingSubTaskExecutions ==>
            r.phaseVersion == SumCodes(r.arrayStatus.detailed) % Uint32Modulus)
      && (r.currentPhase != CheckingSubTaskExecutions ==> r.phaseVersion == DefaultPhaseVersion)
  {
    HistogramWeighted(Reconcile(s, job, cfg, env).arrayStatus.detailed);
  }

  /**
   * Reconciling the compact array a second time against the same sub-jobs
   * changes nothing: a child stays terminal, and a child that is not
   * terminal takes the same sub-job phase again.
   */
  lemma ReconciledIdempotent(existing: seq<PhaseCode>, subJobs: seq<Option<Job>>, isTerminal: PhaseCode -> bool)
    requires SubJobsReady(existing, subJobs, isTerminal)
    ensures SubJobsReady(Reconciled(existing, subJobs, isTerminal), subJobs, isTerminal)
    ensures var r := Reconciled(existing, subJobs, isTerminal);
      Reconciled(r, subJobs, isTerminal) == r
  {
    var r := Reconciled(existing, subJobs, isTerminal);
    assert SubJobsReady(r, subJobs, isTerminal) by {
      forall i | 0 <= i < |r| && !isTerminal(r[i])
        ensures i < |subJobs| && subJobs[i].Some?
      {
        assert !isTerminal(existing[i]);
      }
    }
  }

  /**
   * A second round over the same sub-jobs leaves the compact array, the
   * summary, the phase and the version as the first round set them.
   */
  lemma ReconcileStable(s: ArrayState, job: Job, cfg: Config, env: Collaborators)
    requires s.WellSized() && SubJobsReady(s.arrayStatus.detailed, job.subJobs, env.isTerminal)
    ensures SubJobsReady(Reconcile(s, job, cfg, env).arrayStatus.detailed, job.subJobs, env.isTerminal)
    ensures var r := Reconcile(s, job, cfg, env);
      var r2 := Reconcile(r, job, cfg, env);
      r2.arrayStatus == r.arrayStatus && r2.currentPhase == r.currentPhase && r2.phaseVersion == r.phaseVersion
  {
    ReconciledIdempotent(s.arrayStatus.detailed, job.subJobs, env.isTerminal);
  }

  lemma {:induction false} CollectedNone(existing: seq<PhaseCode>, subJobs: seq<Option<Job>>, env: Collaborators, n: nat)
    requires n <= |existing| && SubJobsReady(existing, subJobs, env.isTerminal)
    requires forall i :: 0 <= i < n ==> !Reports(existing, subJobs, env, i)
    ensures Collected(existing, subJobs, env, n) == []
  {
    if n > 0 {
      CollectedNone(existing, subJobs, env, n - 1);
    }
  }

  /**
   * When every failure phase is terminal, a second round over the same
   * sub-jobs collects no message: every child that reported in the first
   * round is terminal by then.
   */
  lemma SecondRoundCollectsNothing(s: ArrayState, job: Job, cfg: Config, env: Collaborators)
    requires s.WellSized() && SubJobsReady(s.arrayStatus.detailed, job.subJobs, env.isTerminal)
    requires forall p :: env.isFailure(p) ==> env.isTerminal(p)
    ensures SubJobsReady(Reconcile(s, job, cfg, env).arrayStatus.detailed, job.subJobs, env.isTerminal)
    ensures var d := Reconcile(s, job, cfg, env).arrayStatus.detailed;
      Collected(d, job.subJobs, env, |d|) == []
  {
    var d := Reconcile(s, job, cfg, env).arrayStatus.detailed;
    ReconciledIdempotent(s.arrayStatus.detailed, job.subJobs, env.isTerminal);
    forall i | 0 <= i < |d|
      ensures !Reports(d, job.subJobs, env, i)
    {
      if !env.isTerminal(d[i]) {
        assert !env.isTerminal(s.arrayStatus.detailed[i]);
      }
    }
    CollectedNone(d, job.subJobs, env, |d|);
  }

  lemma {:induction false} CollectedLive(existing: seq<PhaseCode>, sj1: seq<Option<Job>>, sj2: seq<Option<Job>>,
                                         env: Collaborators, n: nat)
    requires n <= |existing|
    requires SubJobsReady(existing, sj1, env.isTerminal) && SubJobsReady(existing, sj2, env.isTerminal)
    requires forall i :: 0 <= i < |existing| && !env.isTerminal(existing[i]) ==>
      i < |sj1| && i < |sj2| && sj1[i] == sj2[i]
    ensures Collected(existing, sj1, env, n) == Collected(existing, sj2, env, n)
  {
    if n > 0 {
      CollectedLive(existing, sj1, sj2, env, n - 1);
    }
  }

  /**
   * A round never reads the sub-job of a child that is already terminal:
   * jobs whose sub-jobs agree on the other children give the same state.
   */
  lemma ReconcileIgnoresTerminalSubJobs(s: ArrayState, job1: Job, job2: Job, cfg: Config, env: Collaborators)
    requires s.WellSized()
    requires SubJobsReady(s.arrayStatus.detailed, job1.subJobs, env.isTerminal)
    requires SubJobsReady(s.arrayStatus.detailed, job2.subJobs, env.isTerminal)
    requires forall i :: 0 <= i < |s.arrayStatus.detailed| && !env.isTerminal(s.arrayStatus.detailed[i]) ==>
      i < |job1.subJobs| && i < |job2.subJobs| && job1.subJobs[i] == job2.subJobs[i]
    ensures Reconcile(s, job1, cfg, env) == Reconcile(s, job2, cfg, env)
  {
    var existing := s.arrayStatus.detailed;
    CollectedLive(existing, job1.subJobs, job2.subJobs, env, |existing|);
    assert Reconciled(existing, job1.subJobs, env.isTerminal) == Reconciled(existing, job2.subJobs, env.isTerminal);
  }

  /** The job registered for an execution the store does not track: no status yet and `n` empty sub-job slots. */
  function FreshJob(externalJobId: string, owner: OwnerId, n: nat): (j: Job)
    ensures j.id == externalJobId && j.ownerReference == owner
    ensures |j.subJobs| == n && forall i :: 0 <= i < n ==> j.subJobs[i].None?
  {
    Job(externalJobId, owner, JobPhaseInfo(PhaseUndefined, ""), seq(n, _ => None))
  }

  // ---------------------------------------------------------------------
  // The round
  // ---------------------------------------------------------------------

  /**
   * One pass of the loop of `CheckSubTasksState`: child `childIdx` is
   * recorded in the array and the summary under its new phase, and its
   * failure message, if it reports one, is appended to `msg`.
   */
  method ReconcileChild(status: ArrayStatus, items: seq<PhaseCode>, job: Job, indexesToCache: seq<bool>,
                        env: Collaborators, childIdx: nat, msg: seq<ErrorEntry>)
    returns (msg': seq<ErrorEntry>)
    requires childIdx < |items| == status.detailed.Length
    requires SubJobsReady(items, job.subJobs, env.isTerminal)
    modifies status, status.detailed
    ensures status.detailed[childIdx] == ChildPhase(items, job.subJobs, env.isTerminal, childIdx)
    ensures forall k :: 0 <= k < status.detailed.Length && k != childIdx ==> status.detailed[k] == old(status.detailed[k])
    ensures status.summary == Increment(old(status.summary), ChildPhase(items, job.subJobs, env.isTerminal, childIdx))
    ensures msg' == msg + (if Reports(items, job.subJobs, env, childIdx)
                           then [ErrorEntry(childIdx, job.subJobs[childIdx].value.status.message)] else [])
  {
    var existingPhase := items[childIdx];
    if env.isTerminal(existingPhase) {
      // Already processed in an earlier round: carried forward, the sub-job is not read.
      status.Inc(existingPhase);
      status.SetItem(childIdx, existingPhase);
      return msg;
    }

    var subJob := job.subJobs[childIdx].value;
    // The original index only names the log links, which are not modelled.
    var originalIndex := CalculateOriginalIndex(childIdx, indexesToCache);

    msg' := msg;
    if env.isFailure(subJob.status.phase) {
      if |subJob.status.message| > 0 {
        msg' := msg + [ErrorEntry(childIdx, subJob.status.message)];
      }
    }

    status.SetItem(childIdx, subJob.status.phase);
    status.Inc(subJob.status.phase);
  }

  /**
   * The loop of `CheckSubTasksState` over the children of a tracked job:
   * builds the new compact phase array and summary, and collects the
   * failure messages.
   */
  method ReconcileChildren(items: seq<PhaseCode>, job: Job, indexesToCache: seq<bool>, env: Collaborators)
    returns (newArrayStatus: ArrayStatus, msg: seq<ErrorEntry>)
    requires SubJobsReady(items, job.subJobs, env.isTerminal)
    ensures fresh(newArrayStatus) && fresh(newArrayStatus.detailed)
    ensures newArrayStatus.detailed[..] == Reconciled(items, job.subJobs, env.isTerminal)
    ensures newArrayStatus.summary == Histogram(newArrayStatus.detailed[..])
    ensures msg == Collected(items, job.subJobs, env, |items|)
  {
    newArrayStatus := new ArrayStatus(|items|);
    msg := [];
    ghost var target := Reconciled(items, job.subJobs, env.isTerminal);
    for childIdx := 0 to |items|
      invariant forall k :: 0 <= k < childIdx ==>
        newArrayStatus.detailed[k] == ChildPhase(items, job.subJobs, env.isTerminal, k)
      invariant newArrayStatus.summary == Histogram(target[..childIdx])
      invariant msg == Collected(items, job.subJobs, env, childIdx)
      modifies newArrayStatus, newArrayStatus.detailed
    {
      HistogramStep(target, childIdx);
      assert target[childIdx] == ChildPhase(items, job.subJobs, env.isTerminal, childIdx);
      msg := ReconcileChild(newArrayStatus, items, job, indexesToCache, env, childIdx, msg);
    }
    assert target[..|items|] == target;
  }

  /**
   * `CheckSubTasksState`. If the store does not track the execution (the
   * process restarted), register it and return the state unchanged;
   * otherwise replace the array state of `currentState` by the reconciled
   * one, and return `currentState` itself.
   */
  method CheckSubTasksState(taskMeta: TaskMeta, jobStore: JobStore, cfg: Config, currentState: State, env: Collaborators)
    returns (newState: State)
    requires currentState.state.WellSized()
    requires taskMeta.generatedName in jobStore.jobs ==>
      SubJobsReady(currentState.state.arrayStatus.detailed,
                   jobStore.jobs[taskMeta.generatedName].subJobs, env.isTerminal)
    modifies jobStore, currentState
    ensures newState == currentState
    ensures currentState.externalJobId == old(currentState.externalJobId)
    ensures taskMeta.generatedName !in old(jobStore.jobs) ==>
      && jobStore.jobs == old(jobStore.jobs)[taskMeta.generatedName :=
           FreshJob(currentState.externalJobId, taskMeta.ownerId, currentState.state.executionArraySize)]
      && currentState.state == old(currentState.state)
    ensures taskMeta.generatedName in old(jobStore.jobs) ==>
      && jobStore.jobs == old(jobStore.jobs)
      && currentState.state ==
           Reconcile(old(currentState.state), old(jobStore.jobs)[taskMeta.generatedName], cfg, env)
  {
    newState := currentState;
    var parentState := currentState.state;

    var jobName := taskMeta.generatedName;
    var found := jobStore.Get(jobName);
    if found.None? {
      var _ := jobStore.GetOrCreate(jobName,
        FreshJob(currentState.externalJobId, taskMeta.ownerId, currentState.state.executionArraySize));
      return currentState;
    }
    var job := found.value;

    var newArrayStatus, msg := ReconcileChildren(
      currentState.state.arrayStatus.detailed, job, currentState.state.indexesToCache, env);

    parentState := parentState.(arrayStatus := ArrayStatusValue(newArrayStatus.summary, newArrayStatus.detailed[..]));

    var phase := env.summaryToPhase(
      currentState.state.originalMinSuccesses - currentState.state.originalArraySize - currentState.state.executionArraySize,
      newArrayStatus.summary);
    if phase == PermanentFailure || phase == RetryableFailure {
      var errorMsg := env.summarize(msg, cfg.maxErrorStringLength);
      parentState := parentState.(reason := errorMsg);
    }

    if phase == CheckingSubTaskExecutions {
      var newPhaseVersion: Uint32 := 0;
      if phase == CheckingSubTaskExecutions {
        newPhaseVersion := PhaseVersionOf(parentState.arrayStatus.summary);
      }
      parentState := parentState.(currentPhase := phase, phaseVersion := newPhaseVersion);
    } else {
      parentState := parentState.(currentPhase := phase, phaseVersion := DefaultPhaseVersion);
    }

    newState.state := parentState;
    return newState;
  }
}
