/**
 * Status classification of the BigQuery web-API plugin
 * (go/tasks/plugins/webapi/bigquery/plugin.go): how the state of a query
 * job, an HTTP error returned when the job was created, or the reason code
 * of a finished job's error result becomes a task phase, and which failures
 * are the user's fault and which the system's.
 */
module BigQuery {
  import opened Wrappers
  import opened Phases
  import Decimal

  /** `http.StatusBadRequest` and `http.StatusInternalServerError`. */
  const StatusBadRequest: int := 400
  const StatusInternalServerError: int := 500

  /** `pluginsCore.SystemErrorCode`. */
  const SystemErrorCode: string := "SystemError"

  // ---------------------------------------------------------------------
  // The records the classification reads and writes
  // ---------------------------------------------------------------------

  /** `bigquery.JobReference`. */
  datatype JobReference = JobReference(projectId: string, location: string, jobId: string)

  /** `ResourceMetaWrapper`: what the plugin keeps about a job it created. */
  datatype ResourceMetaWrapper = ResourceMetaWrapper(
    k8sServiceAccount: string,
    namespace: string,
    jobReference: JobReference)

  /** `bigquery.ErrorProto`: the error result of a finished job. */
  datatype ErrorProto = ErrorProto(reason: string, message: string)

  /** `bigquery.JobStatus`. */
  datatype JobStatus = JobStatus(state: string, errorResult: Option<ErrorProto>)

  /** `googleapi.Error`: an HTTP error answered to the job insertion. */
  datatype ApiError = ApiError(code: int, message: string)

  /** `ResourceWrapper`: the latest status of the job, or the error that prevented its creation. */
  datatype ResourceWrapper = ResourceWrapper(status: Option<JobStatus>, createError: Option<ApiError>)

  /** `flyteIdlCore.ExecutionError_USER` and `ExecutionError_SYSTEM`. */
  datatype ErrorKind = User | System

  /** `flyteIdlCore.ExecutionError`. */
  datatype ExecutionError = ExecutionError(message: string, kind: ErrorKind, code: string)

  /** `flyteIdlCore.TaskLog`. */
  datatype TaskLog = TaskLog(uri: string, name: string)

  /** `core.TaskInfo`; the time it occurred at is an uninterpreted number supplied by the caller. */
  datatype TaskInfo = TaskInfo(occurredAt: int, logs: seq<TaskLog>)

  /** `core.PhaseInfo`. */
  datatype PhaseInfo = PhaseInfo(
    phase: PhaseCode,
    version: nat,
    err: Option<ExecutionError>,
    info: Option<TaskInfo>)

  /** An error returned by `Status` beside its phase (`pluginErrors.Errorf`). */
  datatype PluginError = PluginError(code: string, message: string)

  /** The two results of `Status`. */
  datatype StatusResult = StatusResult(phaseInfo: PhaseInfo, err: Option<PluginError>)

  // The phase-info constructors of pluginmachinery/core that the plugin calls.

  const PhaseInfoUndefined: PhaseInfo := PhaseInfo(PhaseUndefined, DefaultPhaseVersion, None, None)

  function PhaseInfoRunning(version: nat, info: TaskInfo): PhaseInfo {
    PhaseInfo(PhaseRunning, version, None, Some(info))
  }

  function PhaseInfoSuccess(info: TaskInfo): PhaseInfo {
    PhaseInfo(PhaseSuccess, DefaultPhaseVersion, None, Some(info))
  }

  function PhaseInfoFailed(phase: PhaseCode, err: ExecutionError, info: TaskInfo): PhaseInfo {
    PhaseInfo(phase, DefaultPhaseVersion, Some(err), Some(info))
  }

  // ---------------------------------------------------------------------
  // The reason tables, stated independently of the switch below
  // ---------------------------------------------------------------------

  /** Error reasons that are transient, so a retry may succeed. */
  const RetryableReasons: set<string> := {
    "backendError", "internalError", "invalidUser", "quotaExceeded",
    "rateLimitExceeded", "resourceInUse", "tableUnavailable"}

  /** Error reasons that need action from the user. */
  const UserReasons: set<string> := {
    "accessDenied", "billingNotEnabled", "blocked", "duplicate", "invalid",
    "invalidQuery", "notFound", "notImplemented", "quotaExceeded",
    "rateLimitExceeded", "resourcesExceeded", "responseTooLarge", "stopped",
    "timeout"}

  // ---------------------------------------------------------------------
  // The classification
  // ---------------------------------------------------------------------

  /** `formatJobReference`: `<project>:<location>.<job>`. */
  function FormatJobReference(r: JobReference): (s: string)
    ensures |s| == |r.projectId| + |r.location| + |r.jobId| + 2
    ensures s[..|r.projectId|] == r.projectId && s[|r.projectId|] == ':'
    ensures s[|r.projectId| + 1..|r.projectId| + 1 + |r.location|] == r.location
    ensures s[|r.projectId| + 1 + |r.location|] == '.'
    ensures s[|r.projectId| + 2 + |r.location|..] == r.jobId
  {
    var s := r.projectId + ":" + r.location + "." + r.jobId;
    assert s == r.projectId + [':'] + (r.location + ['.'] + r.jobId);
    s
  }

  /** `createTaskInfo`: one link to the job in the BigQuery console. */
  function CreateTaskInfo(meta: ResourceMetaWrapper, now: int): (t: TaskInfo)
    ensures t.occurredAt == now && |t.logs| == 1 && t.logs[0].name == "BigQuery Console"
    ensures t.logs[0].uri ==
      ConsolePrefix + meta.jobReference.projectId + "&j=bq:" + meta.jobReference.location + ":" +
      meta.jobReference.jobId + ConsoleSuffix
  {
    var j := "bq:" + meta.jobReference.location + ":" + meta.jobReference.jobId;
    TaskInfo(now, [TaskLog(ConsolePrefix + meta.jobReference.projectId + "&j=" + j + ConsoleSuffix, "BigQuery Console")])
  }

  const ConsolePrefix: string := "https://console.cloud.google.com/bigquery?project="
  const ConsoleSuffix: string := "&page=queryresults"

  /**
   * `handleCreateError`: a client error (4xx) is the user's and permanent,
   * a server error (5xx and above) is the system's and retryable, and
   * anything below 400 is an unexpected system failure that is permanent.
   */
  function HandleCreateError(createError: ApiError, taskInfo: TaskInfo): (r: StatusResult)
    ensures r.err.None?
    ensures r.phaseInfo.err.Some? && r.phaseInfo.info == Some(taskInfo)
    ensures r.phaseInfo.version == DefaultPhaseVersion
    ensures r.phaseInfo.err.value.message == createError.message
    ensures r.phaseInfo.err.value.code == "http" + Decimal.IntToString(createError.code)
    ensures 400 <= createError.code < 500 ==>
      r.phaseInfo.phase == PhasePermanentFailure && r.phaseInfo.err.value.kind == User
    ensures 500 <= createError.code ==>
      r.phaseInfo.phase == PhaseRetryableFailure && r.phaseInfo.err.value.kind == System
    ensures createError.code < 400 ==>
      r.phaseInfo.phase == PhasePermanentFailure && r.phaseInfo.err.value.kind == System
  {
    var code := "http" + Decimal.IntToString(createError.code);
    var userExecutionError := ExecutionError(createError.message, User, code);
    var systemExecutionError := ExecutionError(createError.message, System, code);
    if createError.code >= StatusBadRequest && createError.code < StatusInternalServerError then
      StatusResult(PhaseInfoFailed(PhasePermanentFailure, userExecutionError, taskInfo), None)
    else if createError.code >= StatusInternalServerError then
      StatusResult(PhaseInfoFailed(PhaseRetryableFailure, systemExecutionError, taskInfo), None)
    else
      StatusResult(PhaseInfoFailed(PhasePermanentFailure, systemExecutionError, taskInfo), None)
  }

  /**
   * `handleErrorResult`: an empty reason is success; every other reason is a
   * failure whose code is the reason and whose message is passed through.
   */
  function HandleErrorResult(reason: string, message: string, taskInfo: TaskInfo): (r: StatusResult)
    ensures r.err.None? && r.phaseInfo.info == Some(taskInfo)
    ensures r.phaseInfo.version == DefaultPhaseVersion
    ensures reason == "" ==> r.phaseInfo == PhaseInfoSuccess(taskInfo)
    ensures reason != "" ==>
      r.phaseInfo.err.Some? && r.phaseInfo.err.value.message == message && r.phaseInfo.err.value.code == reason
    ensures reason != "" ==>
      (r.phaseInfo.phase == PhaseRetryableFailure <==> reason in RetryableReasons) &&
      (r.phaseInfo.phase == PhasePermanentFailure <==> reason !in RetryableReasons)
    ensures reason != "" ==> (r.phaseInfo.err.value.kind == User <==> reason in UserReasons)
  {
    var userExecutionError := ExecutionError(message, User, reason);
    var systemExecutionError := ExecutionError(message, System, reason);
    var result := match reason
      case "" => PhaseInfoSuccess(taskInfo)
      case "accessDenied" => PhaseInfoFailed(PhasePermanentFailure, userExecutionError, taskInfo)
      case "backendError" => PhaseInfoFailed(PhaseRetryableFailure, systemExecutionError, taskInfo)
      case "billingNotEnabled" => PhaseInfoFailed(PhasePermanentFailure, userExecutionError, taskInfo)
      case "blocked" => PhaseInfoFailed(PhasePermanentFailure, userExecutionError, taskInfo)
      case "duplicate" => PhaseInfoFailed(PhasePermanentFailure, userExecutionError, taskInfo)
      case "internalError" => PhaseInfoFailed(PhaseRetryableFailure, systemExecutionError, taskInfo)
      case "invalid" => PhaseInfoFailed(PhasePermanentFailure, userExecutionError, taskInfo)
      case "invalidQuery" => PhaseInfoFailed(PhasePermanentFailure, userExecutionError, taskInfo)
      case "invalidUser" => PhaseInfoFailed(PhaseRetryableFailure, systemExecutionError, taskInfo)
      case "notFound" => PhaseInfoFailed(PhasePermanentFailure, userExecutionError, taskInfo)
      case "notImplemented" => PhaseInfoFailed(PhasePermanentFailure, userExecutionError, taskInfo)
      case "quotaExceeded" => PhaseInfoFailed(PhaseRetryableFailure, userExecutionError, taskInfo)
      case "rateLimitExceeded" => PhaseInfoFailed(PhaseRetryableFailure, userExecutionError, taskInfo)
      case "resourceInUse" => PhaseInfoFailed(PhaseRetryableFailure, systemExecutionError, taskInfo)
      case "resourcesExceeded" => PhaseInfoFailed(PhasePermanentFailure, userExecutionError, taskInfo)
      case "responseTooLarge" => PhaseInfoFailed(PhasePermanentFailure, userExecutionError, taskInfo)
      case "stopped" => PhaseInfoFailed(PhasePermanentFailure, userExecutionError, taskInfo)
      case "tableUnavailable" => PhaseInfoFailed(PhaseRetryableFailure, systemExecutionError, taskInfo)
      case "timeout" => PhaseInfoFailed(PhasePermanentFailure, userExecutionError, taskInfo)
      case _ => PhaseInfoFailed(PhasePermanentFailure, systemExecutionError, taskInfo);
    StatusResult(result, None)
  }

  /**
   * The resource handed to `Status` must carry a job status whenever it has
   * no creation error: `Status` reads `resource.Status.State` there.
   */
  predicate StatusReadable(resource: Option<ResourceWrapper>) {
    resource.Some? && resource.value.createError.None? ==> resource.value.status.Some?
  }

  /**
   * `Plugin.Status`: no resource yet is an undefined phase; a creation error
   * is classified first; otherwise the job state decides.
   */
  function Status(meta: ResourceMetaWrapper, resource: Option<ResourceWrapper>, now: int): (r: StatusResult)
    requires StatusReadable(resource)
    ensures resource.None? ==> r == StatusResult(PhaseInfoUndefined, None)
    ensures resource.Some? && resource.value.createError.Some? ==>
      r == HandleCreateError(resource.value.createError.value, CreateTaskInfo(meta, now))
  {
    var version := DefaultPhaseVersion;
    if resource.None? then
      StatusResult(PhaseInfoUndefined, None)
    else
      var taskInfo := CreateTaskInfo(meta, now);
      if resource.value.createError.Some? then
        HandleCreateError(resource.value.createError.value, taskInfo)
      else
        var status := resource.value.status.value;
        match status.state
        case "PENDING" => StatusResult(PhaseInfoRunning(version, taskInfo), None)
        case "RUNNING" => StatusResult(PhaseInfoRunning(version, taskInfo), None)
        case "DONE" =>
          if status.errorResult.Some? then
            HandleErrorResult(status.errorResult.value.reason, status.errorResult.value.message, taskInfo)
          else
            StatusResult(PhaseInfoSuccess(taskInfo), None)
        case _ =>
          StatusResult(PhaseInfoUndefined,
            Some(PluginError(SystemErrorCode, "unknown execution phase [" + status.state + "].")))
  }

  // ---------------------------------------------------------------------
  // Properties
  // ---------------------------------------------------------------------

  /** `Status` reports an error of its own exactly when the job is in a state it does not know. */
  lemma StatusErrorIffUnknownState(meta: ResourceMetaWrapper, resource: Option<ResourceWrapper>, now: int)
    requires StatusReadable(resource)
    ensures Status(meta, resource, now).err.Some? <==>
      resource.Some? && resource.value.createError.None? &&
      resource.value.status.value.state !in {"PENDING", "RUNNING", "DONE"}
    ensures Status(meta, resource, now).err.Some? ==>
      Status(meta, resource, now).phaseInfo == PhaseInfoUndefined &&
      Status(meta, resource, now).err.value.code == SystemErrorCode
  {
  }

  /** By job state: PENDING and RUNNING are running at the default version, DONE is success or the error result. */
  lemma StatusByJobState(meta: ResourceMetaWrapper, w: ResourceWrapper, now: int)
    requires w.createError.None? && w.status.Some?
    ensures var r := Status(meta, Some(w), now);
      && (w.status.value.state in {"PENDING", "RUNNING"} ==>
            r == StatusResult(PhaseInfoRunning(DefaultPhaseVersion, CreateTaskInfo(meta, now)), None))
      && (w.status.value.state == "DONE" && w.status.value.errorResult.None? ==>
            r == StatusResult(PhaseInfoSuccess(CreateTaskInfo(meta, now)), None))
      && (w.status.value.state == "DONE" && w.status.value.errorResult.Some? ==>
            r == HandleErrorResult(w.status.value.errorResult.value.reason,
                   w.status.value.errorResult.value.message, CreateTaskInfo(meta, now)))
  {
  }

  /** Whatever `Status` answers, a failure phase always comes with an execution error, and no other phase does. */
  lemma StatusFailuresCarryErrors(meta: ResourceMetaWrapper, resource: Option<ResourceWrapper>, now: int)
    requires StatusReadable(resource)
    ensures var p := Status(meta, resource, now).phaseInfo;
      && p.phase in {PhaseUndefined, PhaseRunning, PhaseSuccess, PhaseRetryableFailure, PhasePermanentFailure}
      && (p.err.Some? <==> p.phase in {PhaseRetryableFailure, PhasePermanentFailure})
  {
  }

  /** The error code of a creation failure reads back as the HTTP status it came from. */
  lemma CreateErrorCodeRecoverable(createError: ApiError, taskInfo: TaskInfo)
    ensures var code := HandleCreateError(createError, taskInfo).phaseInfo.err.value.code;
      |code| > 4 && code[..4] == "http" && Decimal.ParseInt(code[4..]) == Some(createError.code)
  {
    var code := HandleCreateError(createError, taskInfo).phaseInfo.err.value.code;
    Decimal.IntToStringRoundTrip(createError.code);
    Decimal.NatToStringDigits(if createError.code < 0 then -createError.code else createError.code);
    assert code[4..] == Decimal.IntToString(createError.code);
  }

  /** The position of the first `c` in `s`, if any. */
  function IndexOf(s: string, c: char): (r: Option<nat>)
    ensures r.Some? ==> r.value < |s| && s[r.value] == c && c !in s[..r.value]
    ensures r.None? ==> c !in s
  {
    if s == [] then None
    else if s[0] == c then Some(0)
    else match IndexOf(s[1..], c)
      case None => None
      case Some(k) => assert s[..k + 1] == [s[0]] + s[1..][..k]; Some(k + 1)
  }

  /** Reads `<project>:<location>.<job>` back, splitting at the first colon and then the first dot. */
  function ParseJobReference(s: string): Option<JobReference> {
    match IndexOf(s, ':')
    case None => None
    case Some(i) =>
      var rest := s[i + 1..];
      match IndexOf(rest, '.')
      case None => None
      case Some(j) => Some(JobReference(s[..i], rest[..j], rest[j + 1..]))
  }

  /** The first `c` of `a + [c] + b` is the one after `a`, when `a` holds none. */
  lemma IndexOfAfter(a: string, c: char, b: string)
    requires c !in a
    ensures IndexOf(a + [c] + b, c) == Some(|a|)
  {
    var s := a + [c] + b;
    assert s[|a|] == c && s[..|a|] == a;
  }

  /**
   * The formatted reference loses nothing when the project holds no colon
   * and the location no dot (the job id may hold anything).
   */
  lemma FormatJobReferenceRoundTrip(r: JobReference)
    requires ':' !in r.projectId && '.' !in r.location
    ensures ParseJobReference(FormatJobReference(r)) == Some(r)
  {
    var rest := r.location + "." + r.jobId;
    var s := FormatJobReference(r);
    assert s == r.projectId + [':'] + rest;
    IndexOfAfter(r.projectId, ':', rest);
    IndexOfAfter(r.location, '.', r.jobId);
    var i, j := |r.projectId|, |r.location|;
    assert s[..i] == r.projectId && s[i + 1..] == rest;
    assert rest == r.location + ['.'] + r.jobId;
    assert rest[..j] == r.location && rest[j + 1..] == r.jobId;
    assert ParseJobReference(s) == Some(JobReference(s[..i], rest[..j], rest[j + 1..]));
  }

  /** What the console link puts between the project id and the location. */
  const JobMarker: string := "&j=bq:"

  /** The part of a console link between the console prefix and suffix, if it has both. */
  function StripConsole(uri: string): Option<string> {
    if |uri| < |ConsolePrefix| + |ConsoleSuffix| || uri[..|ConsolePrefix|] != ConsolePrefix ||
       uri[|uri| - |ConsoleSuffix|..] != ConsoleSuffix
    then None
    else Some(uri[|ConsolePrefix|..|uri| - |ConsoleSuffix|])
  }

  /** Splits `<project>&j=bq:<location>:<job>` at the first `&` and then the first colon after the marker. */
  function SplitJobLink(middle: string): Option<JobReference> {
    match IndexOf(middle, '&')
    case None => None
    case Some(i) =>
      if i + |JobMarker| > |middle| || middle[i..i + |JobMarker|] != JobMarker then None
      else
        var rest := middle[i + |JobMarker|..];
        match IndexOf(rest, ':')
        case None => None
        case Some(j) => Some(JobReference(middle[..i], rest[..j], rest[j + 1..]))
  }

  /** Reads a console link back to the job reference it names. */
  function ParseConsoleUri(uri: string): Option<JobReference> {
    match StripConsole(uri)
    case None => None
    case Some(middle) => SplitJobLink(middle)
  }

  lemma StripConsoleAffixes(middle: string)
    ensures StripConsole(ConsolePrefix + middle + ConsoleSuffix) == Some(middle)
  {
    var uri := ConsolePrefix + middle + ConsoleSuffix;
    assert uri[..|ConsolePrefix|] == ConsolePrefix;
    assert uri[|uri| - |ConsoleSuffix|..] == ConsoleSuffix;
    assert uri[|ConsolePrefix|..|uri| - |ConsoleSuffix|] == middle;
  }

  lemma SplitJobLinkParts(r: JobReference)
    requires '&' !in r.projectId && ':' !in r.location
    ensures SplitJobLink(r.projectId + JobMarker + r.location + ":" + r.jobId) == Some(r)
  {
    var rest := r.location + ":" + r.jobId;
    var middle := r.projectId + JobMarker + r.location + ":" + r.jobId;
    assert middle == r.projectId + ['&'] + (JobMarker[1..] + rest);
    IndexOfAfter(r.projectId, '&', JobMarker[1..] + rest);
    var i := |r.projectId|;
    assert middle[i..i + |JobMarker|] == JobMarker;
    assert middle[..i] == r.projectId && middle[i + |JobMarker|..] == rest;
    assert rest == r.location + [':'] + r.jobId;
    IndexOfAfter(r.location, ':', r.jobId);
    assert rest[..|r.location|] == r.location && rest[|r.location| + 1..] == r.jobId;
  }

  /**
   * The console link identifies the job it was made for: when the project id
   * holds no `&` and the location no colon, the link reads back as the job
   * reference.
   */
  lemma ConsoleUriIdentifiesJob(meta: ResourceMetaWrapper, now: int)
    requires '&' !in meta.jobReference.projectId && ':' !in meta.jobReference.location
    ensures ParseConsoleUri(CreateTaskInfo(meta, now).logs[0].uri) == Some(meta.jobReference)
  {
    var r := meta.jobReference;
    var middle := r.projectId + JobMarker + r.location + ":" + r.jobId;
    assert CreateTaskInfo(meta, now).logs[0].uri == ConsolePrefix + middle + ConsoleSuffix;
    StripConsoleAffixes(middle);
    SplitJobLinkParts(r);
  }
}
