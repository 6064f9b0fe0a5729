/**
 * The Job Store client of the export service (src/clients/jobManagerWrapper.ts): the
 * duplicate-candidate search, the expiration extension of a reused job, and the
 * construction of a job-creation request.
 *
 * Each call is first stated as a function of the store's state (`...Spec`), and the
 * methods of `JobManagerWrapper` are proved to perform exactly that call sequence.
 */
module JobManager {
  import opened Wrappers
  import opened Common
  import opened GeometryUtils
  import opened JobStore

  const INVALID_CRS: string := "Invalid CRS"

  /** The store search a duplicate lookup issues: never cleaned jobs, of the configured export type. */
  function FindJobsQueryFor(cfg: Config, status: OperationStatus, dup: DuplicationParams, shouldReturnTasks: bool): (q: FindJobsQuery)
    ensures q.status == status && q.resourceId == dup.resourceId && q.version == dup.version
    ensures !q.isCleaned && q.jobType == cfg.exportJobType && q.shouldReturnTasks == shouldReturnTasks
  {
    FindJobsQuery(dup.resourceId, dup.version, false, cfg.exportJobType, shouldReturnTasks, status)
  }

  /** A stored job is the same logical export as the requested one. */
  predicate MatchesDuplication(job: ExportJob, dup: DuplicationParams, geo: GeoLibrary, cfg: Config) {
    job.internalId == dup.dbId &&
    job.version == dup.version &&
    job.parameters.exportInputParams.crs == dup.crs &&
    CheckFeatures(job.parameters.exportInputParams.roi, dup.roi, geo, cfg)
  }

  /** The first job, in list order, that is the same export as `dup`. */
  function FindExportJobWithMatchingParams(jobs: seq<ExportJob>, dup: DuplicationParams, geo: GeoLibrary, cfg: Config): (r: Option<ExportJob>)
    ensures r.None? <==> forall i :: 0 <= i < |jobs| ==> !MatchesDuplication(jobs[i], dup, geo, cfg)
    ensures r.Some? ==> exists i :: 0 <= i < |jobs| && jobs[i] == r.value && MatchesDuplication(jobs[i], dup, geo, cfg) &&
                          forall j :: 0 <= j < i ==> !MatchesDuplication(jobs[j], dup, geo, cfg)
  {
    if jobs == [] then None
    else if MatchesDuplication(jobs[0], dup, geo, cfg) then Some(jobs[0])
    else
      var r := FindExportJobWithMatchingParams(jobs[1..], dup, geo, cfg);
      assert forall i :: 1 <= i < |jobs| ==> jobs[i] == jobs[1..][i - 1];
      r
  }

  /** Any matching job that the first match passes over comes later in the list. */
  lemma {:induction false} FirstMatchIsFirst(jobs: seq<ExportJob>, dup: DuplicationParams, geo: GeoLibrary, cfg: Config, k: nat)
    requires k < |jobs| && MatchesDuplication(jobs[k], dup, geo, cfg)
    ensures FindExportJobWithMatchingParams(jobs, dup, geo, cfg).Some?
    ensures (forall i :: 0 <= i < k ==> !MatchesDuplication(jobs[i], dup, geo, cfg)) ==>
              FindExportJobWithMatchingParams(jobs, dup, geo, cfg) == Some(jobs[k])
  {
    if k == 0 {
    } else if MatchesDuplication(jobs[0], dup, geo, cfg) {
    } else {
      FirstMatchIsFirst(jobs[1..], dup, geo, cfg, k - 1);
      assert forall i :: 0 <= i < k - 1 ==> jobs[1..][i] == jobs[i + 1];
    }
  }

  /**
   * `findExportJob`: one store search; an absent list and a list without a match both
   * answer "no job"; a failed search fails.
   */
  function FindExportJobSpec(s: StoreState, cfg: Config, geo: GeoLibrary, status: OperationStatus, dup: DuplicationParams, shouldReturnTasks: bool): (e: Effect<Result<Option<ExportJob>, Error>>)
    ensures e.after == FindJobsStep(s, FindJobsQueryFor(cfg, status, dup, shouldReturnTasks)).after
  {
    var f := FindJobsStep(s, FindJobsQueryFor(cfg, status, dup, shouldReturnTasks));
    match f.value
    case Err(err) => Effect(Err(err), f.after)
    case Ok(None) => Effect(Ok(None), f.after)
    case Ok(Some(jobs)) => Effect(Ok(FindExportJobWithMatchingParams(jobs, dup, geo, cfg)), f.after)
  }

  /** The outcome of `findExportJob` against the next scripted reply. */
  lemma FindExportJobAnswers(s: StoreState, cfg: Config, geo: GeoLibrary, status: OperationStatus, dup: DuplicationParams, shouldReturnTasks: bool)
    ensures var e := FindExportJobSpec(s, cfg, geo, status, dup, shouldReturnTasks);
            e.after.findLog == s.findLog + [FindJobsQueryFor(cfg, status, dup, shouldReturnTasks)] &&
            e.after.putLog == s.putLog && e.after.createLog == s.createLog &&
            (e.value.Err? <==> s.findReplies == [] || s.findReplies[0].Unavailable?) &&
            (s.findReplies != [] && s.findReplies[0] == Answered(None) ==> e.value == Ok(None)) &&
            (s.findReplies != [] && s.findReplies[0].Answered? && s.findReplies[0].jobs.Some? ==>
               e.value == Ok(FindExportJobWithMatchingParams(s.findReplies[0].jobs.value, dup, geo, cfg)))
  {
  }

  // ---- Expiration -----------------------------------------------------------

  /** The expiration a reused job is extended to: the configured number of days after `now`. */
  function NewExpiration(now: Timestamp, cfg: Config): (t: Timestamp)
    ensures t - now == cfg.cleanupExpirationDays * MS_PER_DAY
  {
    now + cfg.cleanupExpirationDays * MS_PER_DAY
  }

  /**
   * The stored expiration is earlier than the new one. An absent cleanup record, or an
   * absent or unparseable date, is an invalid date, for which the comparison is false.
   */
  predicate ShouldExtendExpiration(job: ExportJob, newExpiration: Timestamp) {
    match job.parameters.cleanupDataParams
    case None => false
    case Some(c) => c.cleanupExpirationTimeUTC.Some? && c.cleanupExpirationTimeUTC.value < newExpiration
  }

  /** The job parameters with only the cleanup expiration replaced. */
  function ExtendedParameters(p: ExportJobParameters, newExpiration: Timestamp): (q: ExportJobParameters)
    ensures q.exportInputParams == p.exportInputParams && q.additionalParams == p.additionalParams
    ensures q.callbackParams == p.callbackParams
    ensures q.cleanupDataParams.Some? && q.cleanupDataParams.value.cleanupExpirationTimeUTC == Some(newExpiration)
    ensures q.cleanupDataParams.value.directoryPath == if p.cleanupDataParams.Some? then p.cleanupDataParams.value.directoryPath else None
  {
    var directoryPath := match p.cleanupDataParams case Some(c) => c.directoryPath case None => None;
    p.(cleanupDataParams := Some(CleanupDataParams(directoryPath, Some(newExpiration))))
  }

  /** `validateAndUpdateExpiration`: fetch the job, and write the extended parameters iff its expiration is earlier. */
  function ExpirationSpec(s: StoreState, jobId: JobId, now: Timestamp, cfg: Config): (e: Effect<Outcome<Error>>)
  {
    match GetJobStep(s, jobId)
    case Err(err) => Effect(Fail(err), s)
    case Ok(job) =>
      if ShouldExtendExpiration(job, NewExpiration(now, cfg)) then
        Effect(Pass, PutStep(s, jobId, ExtendedParameters(job.parameters, NewExpiration(now, cfg))))
      else
        Effect(Pass, s)
  }

  /**
   * A write happens iff the stored job's expiration is earlier than the new one; it replaces
   * that job's parameters with the extended ones, and nothing else changes.
   */
  lemma ExpirationWritesIffEarlier(s: StoreState, jobId: JobId, now: Timestamp, cfg: Config)
    requires jobId in s.jobsById
    ensures var e := ExpirationSpec(s, jobId, now, cfg);
            e.value == Pass &&
            (e.after != s <==> ShouldExtendExpiration(s.jobsById[jobId], NewExpiration(now, cfg))) &&
            (e.after != s ==>
               e.after == s.(putLog := s.putLog + [PutCall(jobId, ExtendedParameters(s.jobsById[jobId].parameters, NewExpiration(now, cfg)))],
                             jobsById := s.jobsById[jobId := s.jobsById[jobId].(parameters := ExtendedParameters(s.jobsById[jobId].parameters, NewExpiration(now, cfg)))]))
  {
    var e := ExpirationSpec(s, jobId, now, cfg);
    if ShouldExtendExpiration(s.jobsById[jobId], NewExpiration(now, cfg)) {
      assert |e.after.putLog| == |s.putLog| + 1;
    }
  }

  /** A job without cleanup parameters is never written. */
  lemma NoCleanupParamsNoWrite(s: StoreState, jobId: JobId, now: Timestamp, cfg: Config)
    requires jobId in s.jobsById && s.jobsById[jobId].parameters.cleanupDataParams.None?
    ensures ExpirationSpec(s, jobId, now, cfg) == Effect(Pass, s)
  {
  }

  /** An id the store does not know fails the call, without a write. */
  lemma UnknownJobFailsExpiration(s: StoreState, jobId: JobId, now: Timestamp, cfg: Config)
    requires jobId !in s.jobsById
    ensures ExpirationSpec(s, jobId, now, cfg) == Effect(Fail(NotFound(jobId)), s)
  {
  }

  // ---- Job creation ------------------------------------------------------------

  /** The parameters a created job is stored with. */
  function InitialJobParameters(data: ExportInitRequest): (p: ExportJobParameters)
    ensures p.exportInputParams.roi == data.roi && p.exportInputParams.crs == data.crs
    ensures p.exportInputParams.callbacks == data.callbacks && p.exportInputParams.callbackUrls.None?
    ensures p.additionalParams.fileNamesTemplates == data.fileNamesTemplates
    ensures p.additionalParams.relativeDirectoryPath == data.relativeDirectoryPath
    ensures p.additionalParams.packageRelativePath == data.packageRelativePath
    ensures p.additionalParams.gpkgEstimatedSize.None?
    ensures p.cleanupDataParams.None? && p.callbackParams.None?
  {
    ExportJobParameters(
      ExportInputParams(data.roi, data.crs, None, data.callbacks),
      AdditionalParams(data.fileNamesTemplates, data.relativeDirectoryPath, data.packageRelativePath, None),
      None,
      None)
  }

  /** The job-creation request for an export, or "Invalid CRS" for any CRS but EPSG:4326. */
  function CreateJobRequest(data: ExportInitRequest, cfg: Config): (r: Result<CreateJobBody, Error>)
    ensures r.Err? <==> data.crs != SUPPORTED_CRS
    ensures r.Err? ==> r.error == InternalError(INVALID_CRS)
  {
    if data.crs != SUPPORTED_CRS then Err(InternalError(INVALID_CRS))
    else Ok(CreateJobBody(
      data.cswProductId, data.version, cfg.exportJobType, cfg.jobDomain,
      InitialJobParameters(data),
      data.dbId, data.productType, data.cswProductId, data.priority, data.description,
      Pending, 0, data.relativeDirectoryPath,
      [TaskBody(cfg.initTaskType, TaskParameters(true))]))
  }

  /** Every created job starts pending at 0% with one duplication-blocking init task, and is named after the product. */
  lemma CreatedBodyShape(data: ExportInitRequest, cfg: Config)
    requires data.crs == SUPPORTED_CRS
    ensures var r := CreateJobRequest(data, cfg);
            r.Ok? &&
            r.value.status == Pending && r.value.percentage == 0 &&
            r.value.tasks == [TaskBody(cfg.initTaskType, TaskParameters(true))] &&
            r.value.resourceId == data.cswProductId && r.value.productName == data.cswProductId &&
            r.value.additionalIdentifiers == data.relativeDirectoryPath &&
            r.value.internalId == data.dbId && r.value.version == data.version &&
            r.value.jobType == cfg.exportJobType && r.value.domain == cfg.jobDomain &&
            r.value.parameters == InitialJobParameters(data)
  {
  }

  /** `createExportJob`: an invalid CRS fails before anything is sent; otherwise one creation, reported as pending. */
  function CreateExportJobSpec(s: StoreState, data: ExportInitRequest, cfg: Config): (e: Effect<Result<JobResponse, Error>>)
    ensures e.value.Err? <==> data.crs != SUPPORTED_CRS
    ensures e.value.Err? ==> e.after == s && e.value.error == InternalError(INVALID_CRS)
    ensures e.value.Ok? ==>
              e.value.value == JobResponse(s.createReply.id, s.createReply.taskIds, Pending, None) &&
              e.after == s.(createLog := s.createLog + [CreateJobRequest(data, cfg).value])
  {
    match CreateJobRequest(data, cfg)
    case Err(err) => Effect(Err(err), s)
    case Ok(body) =>
      var c := CreateStep(s, body);
      Effect(Ok(JobResponse(c.value.id, c.value.taskIds, Pending, None)), c.after)
  }

  /**
   * A job created for an export is found again by the duplicate search for that export:
   * the search is for its resource id, and a reply holding only that job answers it
   * exactly when the ROI similarity check accepts the ROI against itself.
   */
  lemma CreatedJobMatchesItsRequest(data: ExportInitRequest, cfg: Config, geo: GeoLibrary, id: JobId, status: OperationStatus, tasks: seq<Task>)
    requires data.crs == SUPPORTED_CRS
    ensures var body := CreateJobRequest(data, cfg).value;
            var job := ExportJob(id, body.resourceId, body.version, body.internalId, status, None, body.parameters, tasks);
            var dup := DuplicationParams(data.cswProductId, data.version, data.dbId, data.roi, data.crs);
            FindJobsQueryFor(cfg, status, dup, false).resourceId == job.resourceId &&
            FindJobsQueryFor(cfg, status, dup, false).version == job.version &&
            (CheckFeatures(data.roi, data.roi, geo, cfg) ==> FindExportJobWithMatchingParams([job], dup, geo, cfg) == Some(job)) &&
            (!CheckFeatures(data.roi, data.roi, geo, cfg) ==> FindExportJobWithMatchingParams([job], dup, geo, cfg) == None)
  {
  }

  // ---- The client ------------------------------------------------------------

  class JobManagerWrapper {
    const store: JobStore
    const cfg: Config
    const geo: GeoLibrary

    constructor (store: JobStore, cfg: Config, geo: GeoLibrary)
      ensures this.store == store && this.cfg == cfg && this.geo == geo
    {
      this.store := store;
      this.cfg := cfg;
      this.geo := geo;
    }

    method FindExportJob(status: OperationStatus, dup: DuplicationParams, shouldReturnTasks: bool) returns (r: Result<Option<ExportJob>, Error>)
      modifies store
      ensures Effect(r, store.State()) == FindExportJobSpec(old(store.State()), cfg, geo, status, dup, shouldReturnTasks)
    {
      var q := FindJobsQuery(dup.resourceId, dup.version, false, cfg.exportJobType, shouldReturnTasks, status);
      var jobs := store.FindJobs(q);
      if jobs.Err? {
        return Err(jobs.error);
      }
      if jobs.value.None? {
        return Ok(None);
      }
      r := Ok(FindExportJobWithMatchingParams(jobs.value.value, dup, geo, cfg));
    }

    method ValidateAndUpdateExpiration(jobId: JobId, now: Timestamp) returns (r: Outcome<Error>)
      modifies store
      ensures Effect(r, store.State()) == ExpirationSpec(old(store.State()), jobId, now, cfg)
    {
      var newExpiration := now + cfg.cleanupExpirationDays * MS_PER_DAY;
      var job := store.GetJob(jobId);
      if job.Err? {
        return Fail(job.error);
      }
      var oldExpiration := match job.value.parameters.cleanupDataParams
        case Some(c) => c.cleanupExpirationTimeUTC
        case None => None;
      if oldExpiration.Some? && oldExpiration.value < newExpiration {
        store.Put(jobId, ExtendedParameters(job.value.parameters, newExpiration));
      }
      r := Pass;
    }

    method CreateExportJob(data: ExportInitRequest) returns (r: Result<JobResponse, Error>)
      modifies store
      ensures Effect(r, store.State()) == CreateExportJobSpec(old(store.State()), data, cfg)
    {
      var body := CreateJobRequest(data, cfg);
      if body.Err? {
        return Err(body.error);
      }
      var created := store.CreateJob(body.value);
      r := Ok(JobResponse(created.id, created.taskIds, Pending, None));
    }
  }
}
