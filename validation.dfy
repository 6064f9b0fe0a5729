/**
 * Export admission checks (src/export/models/validationManager.ts): the zoom and
 * footprint validation of the requested features, duplicate detection with the merge of
 * callback targets into a job already running, and the free-space admission.
 */
module Validation {
  import opened Wrappers
  import opened Common
  import opened GeometryUtils
  import opened JobStore
  import opened JobManager

  // ---- Zoom and footprint ----------------------------------------------------------

  /** A record is rejected when its zoom is finer than the source's, or coarser than its own minimum; in that order. */
  function ValidateZoom(record: GeometryRecord, maxZoom: int, sourceResolution: real): (o: Outcome<Error>)
    ensures o.Fail? <==> record.zoomLevel > maxZoom || record.zoomLevel < record.minZoomLevel
    ensures record.zoomLevel > maxZoom ==>
              o == Fail(BadRequest(ResolutionFinerThanSource(record.targetResolutionDeg, sourceResolution)))
    ensures record.zoomLevel <= maxZoom && record.zoomLevel < record.minZoomLevel ==>
              o == Fail(BadRequest(ResolutionBelowMinimum(record.zoomLevel, record.minZoomLevel)))
  {
    if record.zoomLevel > maxZoom then Fail(BadRequest(ResolutionFinerThanSource(record.targetResolutionDeg, sourceResolution)))
    else if record.zoomLevel < record.minZoomLevel then Fail(BadRequest(ResolutionBelowMinimum(record.zoomLevel, record.minZoomLevel)))
    else Pass
  }

  /**
   * One record's validation: the record after it (its sanitized box set once the zoom
   * check passes and the intersection is computed) and the outcome.
   */
  function ValidateRecord(record: GeometryRecord, footprint: Geometry, maxZoom: int, sourceResolution: real, geo: GeoLibrary): (v: (GeometryRecord, Outcome<Error>))
    ensures v.0.(sanitizedBox := record.sanitizedBox) == record
    ensures v.1.Pass? <==>
              ValidateZoom(record, maxZoom, sourceResolution).Pass? &&
              SanitizeBbox(record.geometry, footprint, record.zoomLevel, geo).Ok? &&
              SanitizeBbox(record.geometry, footprint, record.zoomLevel, geo).value.Some?
    ensures v.1.Pass? ==> v.0.sanitizedBox == SanitizeBbox(record.geometry, footprint, record.zoomLevel, geo).value
    ensures SanitizeBbox(record.geometry, footprint, record.zoomLevel, geo) == Ok(None) && ValidateZoom(record, maxZoom, sourceResolution).Pass? ==>
              v == (record.(sanitizedBox := None), Fail(BadRequest(NoIntersection(record.geometry))))
  {
    match ValidateZoom(record, maxZoom, sourceResolution)
    case Fail(err) => (record, Fail(err))
    case Pass =>
      match SanitizeBbox(record.geometry, footprint, record.zoomLevel, geo)
      case Err(err) => (record, Fail(err))
      case Ok(box) =>
        if box.None? then (record.(sanitizedBox := None), Fail(BadRequest(NoIntersection(record.geometry))))
        else (record.(sanitizedBox := box), Pass)
  }

  predicate RecordValid(record: GeometryRecord, footprint: Geometry, maxZoom: int, sourceResolution: real, geo: GeoLibrary) {
    ValidateRecord(record, footprint, maxZoom, sourceResolution, geo).1.Pass?
  }

  /**
   * The records after validating them in order and stopping at the first failure, and the
   * outcome: records before the failing one are validated, the failing one is as its own
   * validation left it, later ones are untouched.
   */
  function ValidateAll(records: seq<GeometryRecord>, footprint: Geometry, maxZoom: int, sourceResolution: real, geo: GeoLibrary): (v: (seq<GeometryRecord>, Outcome<Error>))
    ensures |v.0| == |records|
  {
    if records == [] then ([], Pass)
    else
      var prev := ValidateAll(records[..|records| - 1], footprint, maxZoom, sourceResolution, geo);
      var last := records[|records| - 1];
      if prev.1.Fail? then (prev.0 + [last], prev.1)
      else
        var step := ValidateRecord(last, footprint, maxZoom, sourceResolution, geo);
        (prev.0 + [step.0], step.1)
  }

  /** The index of the first record that fails validation, or the number of records when all pass. */
  function FirstInvalid(records: seq<GeometryRecord>, footprint: Geometry, maxZoom: int, sourceResolution: real, geo: GeoLibrary): (k: nat)
    ensures k <= |records|
    ensures forall i :: 0 <= i < k ==> RecordValid(records[i], footprint, maxZoom, sourceResolution, geo)
    ensures k < |records| ==> !RecordValid(records[k], footprint, maxZoom, sourceResolution, geo)
  {
    if records == [] then 0
    else
      var init := records[..|records| - 1];
      var k := FirstInvalid(init, footprint, maxZoom, sourceResolution, geo);
      assert forall i :: 0 <= i < |init| ==> init[i] == records[i];
      if k < |init| then k
      else if RecordValid(records[|records| - 1], footprint, maxZoom, sourceResolution, geo) then |records|
      else |init|
  }

  /**
   * Validation is fail-fast: every record before the first invalid one is validated, the
   * first invalid one decides the outcome, and the records after it are left as they were.
   */
  lemma {:induction false} ValidateAllStopsAtFirstInvalid(records: seq<GeometryRecord>, footprint: Geometry, maxZoom: int, sourceResolution: real, geo: GeoLibrary)
    ensures var v := ValidateAll(records, footprint, maxZoom, sourceResolution, geo);
            var k := FirstInvalid(records, footprint, maxZoom, sourceResolution, geo);
            (forall i :: 0 <= i < |records| && i <= k ==> v.0[i] == ValidateRecord(records[i], footprint, maxZoom, sourceResolution, geo).0) &&
            (forall i :: k < i < |records| ==> v.0[i] == records[i]) &&
            v.1 == (if k < |records| then ValidateRecord(records[k], footprint, maxZoom, sourceResolution, geo).1 else Pass)
  {
    if records != [] {
      var init := records[..|records| - 1];
      ValidateAllStopsAtFirstInvalid(init, footprint, maxZoom, sourceResolution, geo);
      assert forall i :: 0 <= i < |init| ==> init[i] == records[i];
    }
  }

  /**
   * On success every record has a sanitized box and no other field has changed; success
   * means that every record passes.
   */
  lemma ValidateAllSucceeds(records: seq<GeometryRecord>, footprint: Geometry, maxZoom: int, sourceResolution: real, geo: GeoLibrary)
    ensures var v := ValidateAll(records, footprint, maxZoom, sourceResolution, geo);
            (v.1.Pass? <==> forall i :: 0 <= i < |records| ==> RecordValid(records[i], footprint, maxZoom, sourceResolution, geo)) &&
            (v.1.Pass? ==> forall i :: 0 <= i < |records| ==>
               v.0[i].sanitizedBox.Some? && v.0[i].(sanitizedBox := records[i].sanitizedBox) == records[i])
  {
    ValidateAllStopsAtFirstInvalid(records, footprint, maxZoom, sourceResolution, geo);
    var k := FirstInvalid(records, footprint, maxZoom, sourceResolution, geo);
    if k < |records| {
      assert !RecordValid(records[k], footprint, maxZoom, sourceResolution, geo);
    }
  }

  /** Once a prefix of the records has failed, validating the rest changes nothing. */
  lemma {:induction false} FailureIsFinal(records: seq<GeometryRecord>, n: nat, footprint: Geometry, maxZoom: int, sourceResolution: real, geo: GeoLibrary)
    requires n <= |records|
    requires ValidateAll(records[..n], footprint, maxZoom, sourceResolution, geo).1.Fail?
    ensures ValidateAll(records, footprint, maxZoom, sourceResolution, geo) ==
              (ValidateAll(records[..n], footprint, maxZoom, sourceResolution, geo).0 + records[n..],
               ValidateAll(records[..n], footprint, maxZoom, sourceResolution, geo).1)
  {
    if n < |records| {
      var init := records[..|records| - 1];
      assert init[..n] == records[..n];
      FailureIsFinal(init, n, footprint, maxZoom, sourceResolution, geo);
      var head := ValidateAll(records[..n], footprint, maxZoom, sourceResolution, geo);
      var last := records[|records| - 1];
      assert ValidateAll(records, footprint, maxZoom, sourceResolution, geo) == ((head.0 + init[n..]) + [last], head.1);
      assert records[n..] == init[n..] + [last];
      assert (head.0 + init[n..]) + [last] == head.0 + (init[n..] + [last]);
    } else {
      assert records[..n] == records;
      assert records[n..] == [];
      var v := ValidateAll(records, footprint, maxZoom, sourceResolution, geo);
      assert v.0 + records[n..] == v.0;
    }
  }

  /** Validating one more record after a successful prefix. */
  lemma ValidateAllStep(records: seq<GeometryRecord>, i: nat, footprint: Geometry, maxZoom: int, sourceResolution: real, geo: GeoLibrary)
    requires i < |records|
    requires ValidateAll(records[..i], footprint, maxZoom, sourceResolution, geo).1.Pass?
    ensures ValidateAll(records[..i + 1], footprint, maxZoom, sourceResolution, geo) ==
              (ValidateAll(records[..i], footprint, maxZoom, sourceResolution, geo).0 + [ValidateRecord(records[i], footprint, maxZoom, sourceResolution, geo).0],
               ValidateRecord(records[i], footprint, maxZoom, sourceResolution, geo).1)
  {
    assert records[..i + 1][..i] == records[..i];
  }

  /** The validation of all records when the one at `i` is the first to fail. */
  lemma StopsAt(records: seq<GeometryRecord>, i: nat, footprint: Geometry, maxZoom: int, sourceResolution: real, geo: GeoLibrary)
    requires i < |records|
    requires ValidateAll(records[..i], footprint, maxZoom, sourceResolution, geo).1.Pass?
    requires !RecordValid(records[i], footprint, maxZoom, sourceResolution, geo)
    ensures ValidateAll(records, footprint, maxZoom, sourceResolution, geo) ==
              (ValidateAll(records[..i], footprint, maxZoom, sourceResolution, geo).0
                 + [ValidateRecord(records[i], footprint, maxZoom, sourceResolution, geo).0] + records[i + 1..],
               ValidateRecord(records[i], footprint, maxZoom, sourceResolution, geo).1)
  {
    ValidateAllStep(records, i, footprint, maxZoom, sourceResolution, geo);
    FailureIsFinal(records, i + 1, footprint, maxZoom, sourceResolution, geo);
  }

  /** The array's contents when validation stops at record `i`: validated before it, that record's own result, untouched after it. */
  lemma StoppedAt(input: seq<GeometryRecord>, current: seq<GeometryRecord>, i: nat, footprint: Geometry, maxZoom: int, sourceResolution: real, geo: GeoLibrary)
    requires i < |input| == |current|
    requires ValidateAll(input[..i], footprint, maxZoom, sourceResolution, geo) == (current[..i], Pass)
    requires !RecordValid(input[i], footprint, maxZoom, sourceResolution, geo)
    requires current[i] == ValidateRecord(input[i], footprint, maxZoom, sourceResolution, geo).0
    requires current[i + 1..] == input[i + 1..]
    ensures ValidateAll(input, footprint, maxZoom, sourceResolution, geo) == (current, ValidateRecord(input[i], footprint, maxZoom, sourceResolution, geo).1)
  {
    StopsAt(input, i, footprint, maxZoom, sourceResolution, geo);
    assert current == current[..i] + [current[i]] + current[i + 1..];
  }

  // ---- Callback targets -------------------------------------------------------------

  predicate HasUrl(callbacks: seq<CallbackTarget>, url: string) {
    exists i :: 0 <= i < |callbacks| && callbacks[i].url == url
  }

  /**
   * The stored callback list after adding new targets one by one, each only when no
   * target already in the list has its URL (the ROI of a target plays no part).
   */
  function MergeCallbacks(stored: seq<CallbackTarget>, news: seq<CallbackTarget>): (merged: seq<CallbackTarget>)
    ensures stored <= merged
    ensures |merged| <= |stored| + |news|
  {
    if news == [] then stored
    else
      var m := MergeCallbacks(stored, news[..|news| - 1]);
      var c := news[|news| - 1];
      if HasUrl(m, c.url) then m else m + [c]
  }

  lemma HasUrlAppend(callbacks: seq<CallbackTarget>, c: CallbackTarget, url: string)
    ensures HasUrl(callbacks + [c], url) <==> HasUrl(callbacks, url) || c.url == url
  {
    var extended := callbacks + [c];
    if HasUrl(callbacks, url) {
      var i :| 0 <= i < |callbacks| && callbacks[i].url == url;
      assert extended[i] == callbacks[i];
    }
    if c.url == url {
      assert extended[|callbacks|] == c;
    }
    if HasUrl(extended, url) {
      var i :| 0 <= i < |extended| && extended[i].url == url;
      if i < |callbacks| {
        assert callbacks[i] == extended[i];
      }
    }
  }

  /** The URLs of the merged list are those of the stored list and of the new targets. */
  lemma {:induction false} MergeCallbacksUrls(stored: seq<CallbackTarget>, news: seq<CallbackTarget>, url: string)
    ensures HasUrl(MergeCallbacks(stored, news), url) <==> HasUrl(stored, url) || HasUrl(news, url)
  {
    if news != [] {
      var init := news[..|news| - 1];
      var c := news[|news| - 1];
      MergeCallbacksUrls(stored, init, url);
      assert news == init + [c];
      HasUrlAppend(init, c, url);
      var m := MergeCallbacks(stored, init);
      if !HasUrl(m, c.url) {
        HasUrlAppend(m, c, url);
      }
    }
  }

  /** The new targets that enter the list: those whose URL is in neither the stored list nor an earlier new target. */
  function AcceptedCallbacks(stored: seq<CallbackTarget>, news: seq<CallbackTarget>): (accepted: seq<CallbackTarget>)
    ensures |accepted| <= |news|
  {
    if news == [] then []
    else
      var init := news[..|news| - 1];
      var c := news[|news| - 1];
      AcceptedCallbacks(stored, init) + if HasUrl(stored, c.url) || HasUrl(init, c.url) then [] else [c]
  }

  /** The merge keeps the stored targets in order and appends exactly the accepted new ones, in order. */
  lemma {:induction false} MergeCallbacksAppendsAccepted(stored: seq<CallbackTarget>, news: seq<CallbackTarget>)
    ensures MergeCallbacks(stored, news) == stored + AcceptedCallbacks(stored, news)
  {
    if news != [] {
      var init := news[..|news| - 1];
      var c := news[|news| - 1];
      MergeCallbacksAppendsAccepted(stored, init);
      MergeCallbacksUrls(stored, init, c.url);
    }
  }

  /** A target whose URL is already stored is never added, whatever its ROI. */
  lemma KnownUrlIsNotAdded(stored: seq<CallbackTarget>, c: CallbackTarget)
    requires HasUrl(stored, c.url)
    ensures MergeCallbacks(stored, [c]) == stored
  {
    assert [c][..0] == [];
  }

  predicate DistinctUrls(callbacks: seq<CallbackTarget>) {
    forall i, j :: 0 <= i < j < |callbacks| ==> callbacks[i].url != callbacks[j].url
  }

  /** Merging into a list without repeated URLs gives a list without repeated URLs. */
  lemma {:induction false} MergeCallbacksKeepsUrlsDistinct(stored: seq<CallbackTarget>, news: seq<CallbackTarget>)
    requires DistinctUrls(stored)
    ensures DistinctUrls(MergeCallbacks(stored, news))
  {
    if news != [] {
      var init := news[..|news| - 1];
      var c := news[|news| - 1];
      MergeCallbacksKeepsUrlsDistinct(stored, init);
      var m := MergeCallbacks(stored, init);
      if !HasUrl(m, c.url) {
        var m' := m + [c];
        assert MergeCallbacks(stored, news) == m';
        forall i, j | 0 <= i < j < |m'|
          ensures m'[i].url != m'[j].url
        {
          if j == |m| {
            assert m'[i] == m[i] && m'[j] == c;
            assert !(m[i].url == c.url);
          } else {
            assert m'[i] == m[i] && m'[j] == m[j];
          }
        }
      }
    }
  }

  /** The job's parameters with the new callback targets merged in, or installed when it has no list yet. */
  function MergedParameters(p: ExportJobParameters, news: seq<CallbackTarget>): (q: ExportJobParameters)
    ensures q == p.(exportInputParams := q.exportInputParams)
    ensures q.exportInputParams == p.exportInputParams.(callbackUrls := q.exportInputParams.callbackUrls)
    ensures p.exportInputParams.callbackUrls.None? ==> q.exportInputParams.callbackUrls == Some(news)
    ensures p.exportInputParams.callbackUrls.Some? ==>
              q.exportInputParams.callbackUrls == Some(p.exportInputParams.callbackUrls.value + AcceptedCallbacks(p.exportInputParams.callbackUrls.value, news))
  {
    var merged := (match p.exportInputParams.callbackUrls
      case None => news
      case Some(stored) => MergeCallbacksAppendsAccepted(stored, news); MergeCallbacks(stored, news));
    p.(exportInputParams := p.exportInputParams.(callbackUrls := Some(merged)))
  }

  /** `updateExportCallbackURLs`: no new targets means no write; otherwise exactly one write of the merged parameters. */
  function UpdateCallbacksSpec(s: StoreState, job: ExportJob, news: Option<seq<CallbackTarget>>): (after: StoreState)
    ensures news.None? ==> after == s
    ensures news.Some? ==> after == s.(putLog := s.putLog + [PutCall(job.id, MergedParameters(job.parameters, news.value))],
                                       jobsById := ApplyPut(s.jobsById, PutCall(job.id, MergedParameters(job.parameters, news.value))))
  {
    match news
    case None => s
    case Some(targets) => PutStep(s, job.id, MergedParameters(job.parameters, targets))
  }

  // ---- Duplicate detection -------------------------------------------------------------

  /** What the duplicate check found: nothing, a completed export's callback data, or a job still being produced. */
  datatype DuplicateResult =
    | NoDuplicate
    | CompletedDuplicate(callbackParams: Option<CallbackParams>)
    | ProcessingDuplicate(response: JobResponse)

  function TaskIds(tasks: seq<Task>): (ids: seq<string>)
    ensures |ids| == |tasks| && forall i :: 0 <= i < |tasks| ==> ids[i] == tasks[i].id
  {
    seq(|tasks|, i requires 0 <= i < |tasks| => tasks[i].id)
  }

  /** How a job that is still being produced is reported: pending, or else in progress. */
  function ProcessingResponse(job: ExportJob): (r: JobResponse)
    ensures r.jobId == job.id && r.taskIds == TaskIds(job.tasks) && r.isDuplicated.None?
    ensures r.status == Pending <==> job.status == Pending
    ensures r.status == Pending || r.status == InProgress
  {
    JobResponse(job.id, TaskIds(job.tasks), if job.status == Pending then Pending else InProgress, None)
  }

  /** `checkForExportCompleted`: a completed match has its expiration extended and reports its callback data. */
  function CompletedSpec(s: StoreState, dup: DuplicationParams, now: Timestamp, cfg: Config, geo: GeoLibrary): (e: Effect<Result<DuplicateResult, Error>>)
    ensures e.value.Ok? ==> !e.value.value.ProcessingDuplicate?
  {
    var f := FindExportJobSpec(s, cfg, geo, Completed, dup, false);
    match f.value
    case Err(err) => Effect(Err(err), f.after)
    case Ok(None) => Effect(Ok(NoDuplicate), f.after)
    case Ok(Some(job)) =>
      var u := ExpirationSpec(f.after, job.id, now, cfg);
      if u.value.Fail? then Effect(Err(u.value.error), u.after)
      else Effect(Ok(CompletedDuplicate(job.parameters.callbackParams)), u.after)
  }

  /** `checkForExportProcessing`: an in-progress match, else a pending one; a match gets the new callback targets. */
  function ProcessingSpec(s: StoreState, dup: DuplicationParams, news: Option<seq<CallbackTarget>>, cfg: Config, geo: GeoLibrary): (e: Effect<Result<Option<JobResponse>, Error>>)
  {
    var a := FindExportJobSpec(s, cfg, geo, InProgress, dup, true);
    if a.value.Err? then Effect(Err(a.value.error), a.after)
    else
      var b := if a.value.value.Some? then a else FindExportJobSpec(a.after, cfg, geo, Pending, dup, true);
      match b.value
      case Err(err) => Effect(Err(err), b.after)
      case Ok(None) => Effect(Ok(None), b.after)
      case Ok(Some(job)) => Effect(Ok(Some(ProcessingResponse(job))), UpdateCallbacksSpec(b.after, job, news))
  }

  /**
   * `checkForExportDuplicate`: completed first; then processing, after which completed is
   * asked once more, because the job may have completed meanwhile.
   */
  function DuplicateSpec(s: StoreState, dup: DuplicationParams, news: Option<seq<CallbackTarget>>, now: Timestamp, cfg: Config, geo: GeoLibrary): (e: Effect<Result<DuplicateResult, Error>>)
    ensures e.value.Ok? && e.value.value.ProcessingDuplicate? ==> e.value.value.response.isDuplicated == Some(true)
  {
    var c1 := CompletedSpec(s, dup, now, cfg, geo);
    if c1.value.Err? || c1.value.value.CompletedDuplicate? then c1
    else
      var p := ProcessingSpec(c1.after, dup, news, cfg, geo);
      match p.value
      case Err(err) => Effect(Err(err), p.after)
      case Ok(None) => Effect(Ok(NoDuplicate), p.after)
      case Ok(Some(response)) =>
        var c2 := CompletedSpec(p.after, dup, now, cfg, geo);
        if c2.value.Err? || c2.value.value.CompletedDuplicate? then c2
        else Effect(Ok(ProcessingDuplicate(response.(isDuplicated := Some(true)))), c2.after)
  }

  /** A scripted search reply with no job matching the export. */
  predicate Misses(reply: FindReply, dup: DuplicationParams, geo: GeoLibrary, cfg: Config) {
    reply.Answered? && (reply.jobs.None? || FindExportJobWithMatchingParams(reply.jobs.value, dup, geo, cfg).None?)
  }

  /** A scripted search reply whose first matching job is `job`. */
  predicate Hits(reply: FindReply, dup: DuplicationParams, geo: GeoLibrary, cfg: Config, job: ExportJob) {
    reply.Answered? && reply.jobs.Some? && FindExportJobWithMatchingParams(reply.jobs.value, dup, geo, cfg) == Some(job)
  }

  /** The search a duplicate check makes for `status`: with tasks, except for completed jobs. */
  function Query(cfg: Config, status: OperationStatus, dup: DuplicationParams): FindJobsQuery {
    FindJobsQueryFor(cfg, status, dup, status != Completed)
  }

  /** The store after one search answered from the head of the script. */
  function Advance(s: StoreState, q: FindJobsQuery): StoreState
    requires s.findReplies != []
  {
    s.(findReplies := s.findReplies[1..], findLog := s.findLog + [q])
  }

  lemma CompletedMisses(s: StoreState, dup: DuplicationParams, now: Timestamp, cfg: Config, geo: GeoLibrary)
    requires s.findReplies != [] && Misses(s.findReplies[0], dup, geo, cfg)
    ensures CompletedSpec(s, dup, now, cfg, geo) == Effect(Ok(NoDuplicate), Advance(s, Query(cfg, Completed, dup)))
  {
  }

  lemma CompletedHits(s: StoreState, dup: DuplicationParams, now: Timestamp, cfg: Config, geo: GeoLibrary, job: ExportJob)
    requires s.findReplies != [] && Hits(s.findReplies[0], dup, geo, cfg, job) && job.id in s.jobsById
    ensures CompletedSpec(s, dup, now, cfg, geo) ==
              Effect(Ok(CompletedDuplicate(job.parameters.callbackParams)),
                     ExpirationSpec(Advance(s, Query(cfg, Completed, dup)), job.id, now, cfg).after)
  {
  }

  lemma InProgressHits(s: StoreState, dup: DuplicationParams, news: Option<seq<CallbackTarget>>, cfg: Config, geo: GeoLibrary, job: ExportJob)
    requires s.findReplies != [] && Hits(s.findReplies[0], dup, geo, cfg, job)
    ensures ProcessingSpec(s, dup, news, cfg, geo) ==
              Effect(Ok(Some(ProcessingResponse(job))), UpdateCallbacksSpec(Advance(s, Query(cfg, InProgress, dup)), job, news))
  {
  }

  lemma PendingHits(s: StoreState, dup: DuplicationParams, news: Option<seq<CallbackTarget>>, cfg: Config, geo: GeoLibrary, job: ExportJob)
    requires |s.findReplies| >= 2 && Misses(s.findReplies[0], dup, geo, cfg) && Hits(s.findReplies[1], dup, geo, cfg, job)
    ensures ProcessingSpec(s, dup, news, cfg, geo) ==
              Effect(Ok(Some(ProcessingResponse(job))),
                     UpdateCallbacksSpec(Advance(Advance(s, Query(cfg, InProgress, dup)), Query(cfg, Pending, dup)), job, news))
  {
    assert Advance(s, Query(cfg, InProgress, dup)).findReplies[0] == s.findReplies[1];
  }

  lemma ProcessingMisses(s: StoreState, dup: DuplicationParams, news: Option<seq<CallbackTarget>>, cfg: Config, geo: GeoLibrary)
    requires |s.findReplies| >= 2 && Misses(s.findReplies[0], dup, geo, cfg) && Misses(s.findReplies[1], dup, geo, cfg)
    ensures ProcessingSpec(s, dup, news, cfg, geo) ==
              Effect(Ok(None), Advance(Advance(s, Query(cfg, InProgress, dup)), Query(cfg, Pending, dup)))
  {
    assert Advance(s, Query(cfg, InProgress, dup)).findReplies[0] == s.findReplies[1];
  }

  /** A duplicate check that finds nothing completed, a job being produced, and still nothing completed. */
  lemma ProcessingThenNotCompleted(s: StoreState, dup: DuplicationParams, news: Option<seq<CallbackTarget>>, now: Timestamp, cfg: Config, geo: GeoLibrary,
                                   s1: StoreState, response: JobResponse, s2: StoreState, s3: StoreState)
    requires CompletedSpec(s, dup, now, cfg, geo) == Effect(Ok(NoDuplicate), s1)
    requires ProcessingSpec(s1, dup, news, cfg, geo) == Effect(Ok(Some(response)), s2)
    requires CompletedSpec(s2, dup, now, cfg, geo) == Effect(Ok(NoDuplicate), s3)
    ensures DuplicateSpec(s, dup, news, now, cfg, geo) == Effect(Ok(ProcessingDuplicate(response.(isDuplicated := Some(true)))), s3)
  {
  }

  /** A duplicate check that finds nothing completed, a job being produced, and then a completed match. */
  lemma ProcessingThenCompleted(s: StoreState, dup: DuplicationParams, news: Option<seq<CallbackTarget>>, now: Timestamp, cfg: Config, geo: GeoLibrary,
                                s1: StoreState, response: JobResponse, s2: StoreState)
    requires CompletedSpec(s, dup, now, cfg, geo) == Effect(Ok(NoDuplicate), s1)
    requires ProcessingSpec(s1, dup, news, cfg, geo) == Effect(Ok(Some(response)), s2)
    requires CompletedSpec(s2, dup, now, cfg, geo).value.Ok? && CompletedSpec(s2, dup, now, cfg, geo).value.value.CompletedDuplicate?
    ensures DuplicateSpec(s, dup, news, now, cfg, geo) == CompletedSpec(s2, dup, now, cfg, geo)
  {
  }

  /** A completed match is answered at once: no processing search is made and no callback is written. */
  lemma CompletedFirst(s: StoreState, dup: DuplicationParams, news: Option<seq<CallbackTarget>>, now: Timestamp, cfg: Config, geo: GeoLibrary, job: ExportJob)
    requires |s.findReplies| >= 1 && Hits(s.findReplies[0], dup, geo, cfg, job)
    requires job.id in s.jobsById && !ShouldExtendExpiration(s.jobsById[job.id], NewExpiration(now, cfg))
    ensures var e := DuplicateSpec(s, dup, news, now, cfg, geo);
            e.value == Ok(CompletedDuplicate(job.parameters.callbackParams)) &&
            e.after == s.(findReplies := s.findReplies[1..], findLog := s.findLog + [Query(cfg, Completed, dup)])
  {
    CompletedHits(s, dup, now, cfg, geo, job);
  }

  /** A completed match whose expiration is earlier is extended by exactly one write. */
  lemma CompletedFirstExtendsExpiration(s: StoreState, dup: DuplicationParams, news: Option<seq<CallbackTarget>>, now: Timestamp, cfg: Config, geo: GeoLibrary, job: ExportJob)
    requires |s.findReplies| >= 1 && Hits(s.findReplies[0], dup, geo, cfg, job)
    requires job.id in s.jobsById && ShouldExtendExpiration(s.jobsById[job.id], NewExpiration(now, cfg))
    ensures var e := DuplicateSpec(s, dup, news, now, cfg, geo);
            e.value == Ok(CompletedDuplicate(job.parameters.callbackParams)) &&
            e.after.findLog == s.findLog + [Query(cfg, Completed, dup)] &&
            e.after.putLog == s.putLog + [PutCall(job.id, ExtendedParameters(s.jobsById[job.id].parameters, NewExpiration(now, cfg)))]
  {
    CompletedHits(s, dup, now, cfg, geo, job);
  }

  /**
   * The race: nothing completed at first, a job in progress, and then a completed match on
   * the second look; the completed result wins, after the callbacks were merged into the
   * job in progress.
   */
  lemma RaceRecheckReturnsCompleted(s: StoreState, dup: DuplicationParams, news: Option<seq<CallbackTarget>>, now: Timestamp, cfg: Config, geo: GeoLibrary, running: ExportJob, done: ExportJob)
    requires |s.findReplies| >= 3
    requires Misses(s.findReplies[0], dup, geo, cfg)
    requires Hits(s.findReplies[1], dup, geo, cfg, running)
    requires Hits(s.findReplies[2], dup, geo, cfg, done)
    requires done.id in s.jobsById
    requires !ShouldExtendExpiration(UpdateCallbacksSpec(s, running, news).jobsById[done.id], NewExpiration(now, cfg))
    ensures var e := DuplicateSpec(s, dup, news, now, cfg, geo);
            e.value == Ok(CompletedDuplicate(done.parameters.callbackParams)) &&
            e.after == s.(findReplies := s.findReplies[3..],
                          findLog := s.findLog + [Query(cfg, Completed, dup), Query(cfg, InProgress, dup), Query(cfg, Completed, dup)],
                          putLog := UpdateCallbacksSpec(s, running, news).putLog,
                          jobsById := UpdateCallbacksSpec(s, running, news).jobsById)
  {
    var s1 := Advance(s, Query(cfg, Completed, dup));
    CompletedMisses(s, dup, now, cfg, geo);
    assert s1.findReplies[0] == s.findReplies[1];
    InProgressHits(s1, dup, news, cfg, geo, running);
    var s2 := UpdateCallbacksSpec(Advance(s1, Query(cfg, InProgress, dup)), running, news);
    assert s2.findReplies == s.findReplies[2..] && s2.jobsById == UpdateCallbacksSpec(s, running, news).jobsById;
    CompletedHits(s2, dup, now, cfg, geo, done);
    ProcessingThenCompleted(s, dup, news, now, cfg, geo, s1, ProcessingResponse(running), s2);
    assert s.findReplies[2..][1..] == s.findReplies[3..];
    assert s2.putLog == UpdateCallbacksSpec(s, running, news).putLog && s2.jobsById == UpdateCallbacksSpec(s, running, news).jobsById;
  }

  /** A job in progress, and still no completed match: it is reported as a duplicate, with its task ids. */
  lemma InProgressIsDuplicate(s: StoreState, dup: DuplicationParams, news: Option<seq<CallbackTarget>>, now: Timestamp, cfg: Config, geo: GeoLibrary, running: ExportJob)
    requires |s.findReplies| >= 3
    requires Misses(s.findReplies[0], dup, geo, cfg)
    requires Hits(s.findReplies[1], dup, geo, cfg, running)
    requires Misses(s.findReplies[2], dup, geo, cfg)
    ensures var e := DuplicateSpec(s, dup, news, now, cfg, geo);
            e.value == Ok(ProcessingDuplicate(ProcessingResponse(running).(isDuplicated := Some(true)))) &&
            e.after == s.(findReplies := s.findReplies[3..],
                          findLog := s.findLog + [Query(cfg, Completed, dup), Query(cfg, InProgress, dup), Query(cfg, Completed, dup)],
                          putLog := UpdateCallbacksSpec(s, running, news).putLog,
                          jobsById := UpdateCallbacksSpec(s, running, news).jobsById)
  {
    var s1 := Advance(s, Query(cfg, Completed, dup));
    CompletedMisses(s, dup, now, cfg, geo);
    assert s1.findReplies[0] == s.findReplies[1];
    InProgressHits(s1, dup, news, cfg, geo, running);
    var s2 := UpdateCallbacksSpec(Advance(s1, Query(cfg, InProgress, dup)), running, news);
    assert s2.findReplies == s.findReplies[2..];
    CompletedMisses(s2, dup, now, cfg, geo);
    ProcessingThenNotCompleted(s, dup, news, now, cfg, geo, s1, ProcessingResponse(running), s2, Advance(s2, Query(cfg, Completed, dup)));
    assert s.findReplies[2..][1..] == s.findReplies[3..];
    assert s2.putLog == UpdateCallbacksSpec(s, running, news).putLog && s2.jobsById == UpdateCallbacksSpec(s, running, news).jobsById;
  }

  /** Pending jobs are searched only when no job in progress matches. */
  lemma PendingFallback(s: StoreState, dup: DuplicationParams, news: Option<seq<CallbackTarget>>, now: Timestamp, cfg: Config, geo: GeoLibrary, waiting: ExportJob)
    requires |s.findReplies| >= 4
    requires Misses(s.findReplies[0], dup, geo, cfg)
    requires Misses(s.findReplies[1], dup, geo, cfg)
    requires Hits(s.findReplies[2], dup, geo, cfg, waiting)
    requires Misses(s.findReplies[3], dup, geo, cfg)
    ensures var e := DuplicateSpec(s, dup, news, now, cfg, geo);
            e.value == Ok(ProcessingDuplicate(ProcessingResponse(waiting).(isDuplicated := Some(true)))) &&
            e.after == s.(findReplies := s.findReplies[4..],
                          findLog := s.findLog + [Query(cfg, Completed, dup), Query(cfg, InProgress, dup), Query(cfg, Pending, dup), Query(cfg, Completed, dup)],
                          putLog := UpdateCallbacksSpec(s, waiting, news).putLog,
                          jobsById := UpdateCallbacksSpec(s, waiting, news).jobsById)
  {
    var s1 := Advance(s, Query(cfg, Completed, dup));
    CompletedMisses(s, dup, now, cfg, geo);
    assert s1.findReplies[0] == s.findReplies[1] && s1.findReplies[1] == s.findReplies[2];
    PendingHits(s1, dup, news, cfg, geo, waiting);
    var s2 := UpdateCallbacksSpec(Advance(Advance(s1, Query(cfg, InProgress, dup)), Query(cfg, Pending, dup)), waiting, news);
    assert s2.findReplies == s.findReplies[3..];
    CompletedMisses(s2, dup, now, cfg, geo);
    ProcessingThenNotCompleted(s, dup, news, now, cfg, geo, s1, ProcessingResponse(waiting), s2, Advance(s2, Query(cfg, Completed, dup)));
    assert s.findReplies[3..][1..] == s.findReplies[4..];
    assert s2.putLog == UpdateCallbacksSpec(s, waiting, news).putLog && s2.jobsById == UpdateCallbacksSpec(s, waiting, news).jobsById;
  }

  /** No match in any search: no duplicate, and nothing is written. */
  lemma NoMatchNoDuplicate(s: StoreState, dup: DuplicationParams, news: Option<seq<CallbackTarget>>, now: Timestamp, cfg: Config, geo: GeoLibrary)
    requires |s.findReplies| >= 3
    requires Misses(s.findReplies[0], dup, geo, cfg)
    requires Misses(s.findReplies[1], dup, geo, cfg)
    requires Misses(s.findReplies[2], dup, geo, cfg)
    ensures var e := DuplicateSpec(s, dup, news, now, cfg, geo);
            e.value == Ok(NoDuplicate) &&
            e.after == s.(findReplies := s.findReplies[3..],
                          findLog := s.findLog + [Query(cfg, Completed, dup), Query(cfg, InProgress, dup), Query(cfg, Pending, dup)])
  {
    var s1 := Advance(s, Query(cfg, Completed, dup));
    CompletedMisses(s, dup, now, cfg, geo);
    assert s1.findReplies[0] == s.findReplies[1] && s1.findReplies[1] == s.findReplies[2];
    ProcessingMisses(s1, dup, news, cfg, geo);
    assert s1.findReplies[1..][1..] == s.findReplies[3..];
  }

  /** A failed first search fails the whole check, before anything else is asked. */
  lemma UnavailableStoreFails(s: StoreState, dup: DuplicationParams, news: Option<seq<CallbackTarget>>, now: Timestamp, cfg: Config, geo: GeoLibrary)
    requires s.findReplies == [] || s.findReplies[0].Unavailable?
    ensures var e := DuplicateSpec(s, dup, news, now, cfg, geo);
            e.value == Err(UpstreamError) && e.after.findLog == s.findLog + [Query(cfg, Completed, dup)] && e.after.putLog == s.putLog
  {
  }

  /**
   * Between two states of the store: no job is created and the running jobs are the same;
   * the write log only grows, and the stored jobs are the old ones with exactly the new
   * writes applied in order.
   */
  predicate OnlyWrites(s: StoreState, t: StoreState) {
    t.runningJobs == s.runningJobs && t.createLog == s.createLog && t.createReply == s.createReply &&
    s.putLog <= t.putLog && t.jobsById == ApplyPuts(s.jobsById, t.putLog[|s.putLog|..])
  }

  /** Two such stretches make one. */
  lemma OnlyWritesCompose(s: StoreState, t: StoreState, u: StoreState)
    requires OnlyWrites(s, t) && OnlyWrites(t, u)
    ensures OnlyWrites(s, u)
  {
    assert u.putLog[|s.putLog|..] == t.putLog[|s.putLog|..] + u.putLog[|t.putLog|..];
    ApplyPutsAppend(s.jobsById, t.putLog[|s.putLog|..], u.putLog[|t.putLog|..]);
  }

  /** The completed check creates nothing; its only change to stored jobs is the expiration write it logs. */
  lemma CompletedOnlyWrites(s: StoreState, dup: DuplicationParams, now: Timestamp, cfg: Config, geo: GeoLibrary)
    ensures OnlyWrites(s, CompletedSpec(s, dup, now, cfg, geo).after)
  {
    var t := CompletedSpec(s, dup, now, cfg, geo).after;
    assert t.putLog == s.putLog || t.putLog[|s.putLog|..] == [t.putLog[|s.putLog|]];
  }

  /** The processing check creates nothing; its only change to stored jobs is the callback write it logs. */
  lemma ProcessingOnlyWrites(s: StoreState, dup: DuplicationParams, news: Option<seq<CallbackTarget>>, cfg: Config, geo: GeoLibrary)
    ensures OnlyWrites(s, ProcessingSpec(s, dup, news, cfg, geo).after)
  {
    var t := ProcessingSpec(s, dup, news, cfg, geo).after;
    assert t.putLog == s.putLog || t.putLog[|s.putLog|..] == [t.putLog[|s.putLog|]];
  }

  /**
   * The whole duplicate check never creates a job and never adds or removes a stored job;
   * a stored job changes only by the writes it logs, and then holds the last parameters
   * written to it.
   */
  lemma DuplicateCheckCreatesNothing(s: StoreState, dup: DuplicationParams, news: Option<seq<CallbackTarget>>, now: Timestamp, cfg: Config, geo: GeoLibrary)
    ensures var t := DuplicateSpec(s, dup, news, now, cfg, geo).after;
            OnlyWrites(s, t) &&
            t.jobsById.Keys == s.jobsById.Keys &&
            forall id :: id in s.jobsById ==>
              t.jobsById[id] == match LastWrite(t.putLog[|s.putLog|..], id)
                                case None => s.jobsById[id]
                                case Some(p) => s.jobsById[id].(parameters := p)
  {
    var c1 := CompletedSpec(s, dup, now, cfg, geo);
    CompletedOnlyWrites(s, dup, now, cfg, geo);
    var p := ProcessingSpec(c1.after, dup, news, cfg, geo);
    ProcessingOnlyWrites(c1.after, dup, news, cfg, geo);
    var c2 := CompletedSpec(p.after, dup, now, cfg, geo);
    CompletedOnlyWrites(p.after, dup, now, cfg, geo);
    OnlyWritesCompose(s, c1.after, p.after);
    OnlyWritesCompose(s, p.after, c2.after);
    var t := DuplicateSpec(s, dup, news, now, cfg, geo).after;
    ApplyPutsLastWriteWins(s.jobsById, t.putLog[|s.putLog|..]);
  }

  // ---- Free space -----------------------------------------------------------------

  /** What a job still needs: its estimate, scaled by the part not yet done when its percentage is non-zero. */
  function RemainingEstimate(job: ExportJob): (n: JsNumber)
    ensures n.NaN? <==> job.parameters.additionalParams.gpkgEstimatedSize.None?
  {
    var estimate := match job.parameters.additionalParams.gpkgEstimatedSize
      case Some(v) => Num(v)
      case None => NaN;
    match job.percentage
    case Some(p) => if p != 0.0 then Times(Minus(Num(1.0), Num(p / 100.0)), estimate) else estimate
    case None => estimate
  }

  /** The running jobs' remaining estimates, summed in order as the loop does. */
  function OutstandingSize(jobs: seq<ExportJob>): (n: JsNumber)
  {
    if jobs == [] then Num(0.0)
    else Plus(OutstandingSize(jobs[..|jobs| - 1]), RemainingEstimate(jobs[|jobs| - 1]))
  }

  /** The remaining estimate of a job whose estimate is known. */
  function RemainingReal(job: ExportJob): real
    requires job.parameters.additionalParams.gpkgEstimatedSize.Some?
  {
    var estimate := job.parameters.additionalParams.gpkgEstimatedSize.value;
    if job.percentage.Some? && job.percentage.value != 0.0 then (1.0 - job.percentage.value / 100.0) * estimate else estimate
  }

  predicate AllEstimated(jobs: seq<ExportJob>) {
    forall i :: 0 <= i < |jobs| ==> jobs[i].parameters.additionalParams.gpkgEstimatedSize.Some?
  }

  /** The reference sum, first job first. */
  function SumRemaining(jobs: seq<ExportJob>): real
    requires AllEstimated(jobs)
  {
    if jobs == [] then 0.0 else RemainingReal(jobs[0]) + SumRemaining(jobs[1..])
  }

  lemma {:induction false} SumRemainingAppend(jobs: seq<ExportJob>, job: ExportJob)
    requires AllEstimated(jobs) && job.parameters.additionalParams.gpkgEstimatedSize.Some?
    ensures AllEstimated(jobs + [job])
    ensures SumRemaining(jobs + [job]) == SumRemaining(jobs) + RemainingReal(job)
  {
    assert AllEstimated(jobs + [job]);
    if jobs != [] {
      assert (jobs + [job])[1..] == jobs[1..] + [job];
      SumRemainingAppend(jobs[1..], job);
    }
  }

  /** A job whose estimate is known still needs a number of bytes. */
  lemma RemainingEstimateKnown(job: ExportJob)
    requires job.parameters.additionalParams.gpkgEstimatedSize.Some?
    ensures RemainingEstimate(job) == Num(RemainingReal(job))
  {
  }

  /** With every estimate known, the outstanding size is the plain sum of what the jobs still need. */
  lemma {:induction false} OutstandingSizeIsSum(jobs: seq<ExportJob>)
    requires AllEstimated(jobs)
    ensures OutstandingSize(jobs) == Num(SumRemaining(jobs))
  {
    if jobs != [] {
      var init, last := jobs[..|jobs| - 1], jobs[|jobs| - 1];
      assert AllEstimated(init) by {
        assert forall i :: 0 <= i < |init| ==> init[i] == jobs[i];
      }
      OutstandingSizeIsSum(init);
      RemainingEstimateKnown(last);
      assert OutstandingSize(jobs) == Num(SumRemaining(init) + RemainingReal(last));
      SumRemainingAppend(init, last);
      assert init + [last] == jobs;
    }
  }

  /** A single running job without an estimate makes the outstanding size NaN, and only that does. */
  lemma {:induction false} OutstandingSizeNaN(jobs: seq<ExportJob>)
    ensures OutstandingSize(jobs).NaN? <==> !AllEstimated(jobs)
  {
    if jobs != [] {
      var init := jobs[..|jobs| - 1];
      OutstandingSizeNaN(init);
      assert forall i :: 0 <= i < |init| ==> init[i] == jobs[i];
      if !AllEstimated(init) {
        var i :| 0 <= i < |init| && init[i].parameters.additionalParams.gpkgEstimatedSize.None?;
        assert jobs[i] == init[i];
      }
    }
  }

  /** Free space on the disk, less the buffered outstanding size of the running jobs. */
  function FreeSpace(disk: StorageStatus, running: seq<ExportJob>, cfg: Config): (n: JsNumber)
  {
    Minus(Num(disk.free), Times(OutstandingSize(running), Num(cfg.storageFactorBuffer)))
  }

  /** An export is admitted iff the free space less its estimate is not negative; NaN is never admitted. */
  function AdmitDecision(freeSpace: JsNumber, estimate: real): (o: Outcome<Error>)
    ensures o.Fail? <==> freeSpace.NaN? || freeSpace.value - estimate < 0.0
    ensures o.Fail? ==> o.error == InsufficientStorage
  {
    if freeSpace.Num? && freeSpace.value - estimate >= 0.0 then Pass else Fail(InsufficientStorage)
  }

  /** With every estimate known, the free space is a number: the disk's free bytes less the buffered sum of what the running jobs still need. */
  lemma FreeSpaceWithKnownEstimates(disk: StorageStatus, running: seq<ExportJob>, cfg: Config)
    requires AllEstimated(running)
    ensures FreeSpace(disk, running, cfg) == Num(disk.free - SumRemaining(running) * cfg.storageFactorBuffer)
  {
    OutstandingSizeIsSum(running);
  }

  /** With every estimate known, admission compares the estimate with the free space less the buffered sum. */
  lemma AdmissionWithKnownEstimates(disk: StorageStatus, running: seq<ExportJob>, cfg: Config, estimate: real)
    requires AllEstimated(running)
    ensures AdmitDecision(FreeSpace(disk, running, cfg), estimate).Fail? <==>
              disk.free - SumRemaining(running) * cfg.storageFactorBuffer - estimate < 0.0
  {
    FreeSpaceWithKnownEstimates(disk, running, cfg);
  }

  /** One running job without an estimate makes every export fail for lack of storage. */
  lemma MissingEstimateRejects(disk: StorageStatus, running: seq<ExportJob>, cfg: Config, estimate: real)
    requires !AllEstimated(running)
    ensures AdmitDecision(FreeSpace(disk, running, cfg), estimate) == Fail(InsufficientStorage)
  {
    OutstandingSizeNaN(running);
  }

  /** With nothing running, 10000 free bytes admit an estimate of 1111 and 1 free byte does not. */
  lemma AdmissionExamples(cfg: Config)
    ensures AdmitDecision(Num(10000.0), 1111.0) == Pass
    ensures AdmitDecision(Num(1.0), 1111.0) == Fail(InsufficientStorage)
    ensures FreeSpace(StorageStatus(10000.0, 20000.0), [], cfg) == Num(10000.0)
  {
  }

  // ---- The manager ------------------------------------------------------------------

  class ValidationManager {
    const jobs: JobManagerWrapper

    constructor (jobs: JobManagerWrapper)
      ensures this.jobs == jobs
    {
      this.jobs := jobs;
    }

    /** Validates the records in order, filling in each sanitized box, and stops at the first failure. */
    method ValidateFeaturesCollection(records: array<GeometryRecord>, footprint: Geometry, maxZoom: int, sourceResolution: real) returns (r: Outcome<Error>)
      modifies records
      ensures (records[..], r) == ValidateAll(old(records[..]), footprint, maxZoom, sourceResolution, jobs.geo)
    {
      ghost var input := records[..];
      var i := 0;
      while i < records.Length
        invariant 0 <= i <= records.Length
        invariant records[i..] == input[i..]
        invariant ValidateAll(input[..i], footprint, maxZoom, sourceResolution, jobs.geo) == (records[..i], Pass)
      {
        var record := records[i];
        assert record == input[i] && records[i + 1..] == input[i + 1..] by {
          assert records[i..][0] == input[i..][0] && records[i..][1..] == input[i..][1..];
        }
        var zoom := ValidateZoom(record, maxZoom, sourceResolution);
        if zoom.Fail? {
          StoppedAt(input, records[..], i, footprint, maxZoom, sourceResolution, jobs.geo);
          return zoom;
        }
        var box := SanitizeBbox(record.geometry, footprint, record.zoomLevel, jobs.geo);
        if box.Err? {
          StoppedAt(input, records[..], i, footprint, maxZoom, sourceResolution, jobs.geo);
          return Fail(box.error);
        }
        records[i] := record.(sanitizedBox := box.value);
        if box.value.None? {
          StoppedAt(input, records[..], i, footprint, maxZoom, sourceResolution, jobs.geo);
          return Fail(BadRequest(NoIntersection(record.geometry)));
        }
        ValidateAllStep(input, i, footprint, maxZoom, sourceResolution, jobs.geo);
        assert records[..i + 1] == records[..i] + [records[i]];
        i := i + 1;
      }
      assert input[..i] == input && records[..i] == records[..];
      r := Pass;
    }

    /** Adds new callback targets to a job found in progress and writes its parameters back. */
    method UpdateExportCallbackURLs(job: ExportJob, newCallbacks: Option<seq<CallbackTarget>>)
      modifies jobs.store
      ensures jobs.store.State() == UpdateCallbacksSpec(old(jobs.store.State()), job, newCallbacks)
    {
      if newCallbacks.None? {
        return;
      }
      var news := newCallbacks.value;
      var parameters := job.parameters;
      if parameters.exportInputParams.callbackUrls.None? {
        parameters := parameters.(exportInputParams := parameters.exportInputParams.(callbackUrls := Some(news)));
      } else {
        var callbacks := parameters.exportInputParams.callbackUrls.value;
        ghost var stored := callbacks;
        for i := 0 to |news|
          invariant callbacks == MergeCallbacks(stored, news[..i])
        {
          assert news[..i + 1][..i] == news[..i];
          if !HasUrl(callbacks, news[i].url) {
            callbacks := callbacks + [news[i]];
          }
        }
        assert news[..|news|] == news;
        parameters := parameters.(exportInputParams := parameters.exportInputParams.(callbackUrls := Some(callbacks)));
      }
      jobs.store.Put(job.id, parameters);
    }

    method CheckForExportCompleted(dup: DuplicationParams, now: Timestamp) returns (r: Result<DuplicateResult, Error>)
      modifies jobs.store
      ensures Effect(r, jobs.store.State()) == CompletedSpec(old(jobs.store.State()), dup, now, jobs.cfg, jobs.geo)
    {
      var responseJob := jobs.FindExportJob(Completed, dup, false);
      if responseJob.Err? {
        return Err(responseJob.error);
      }
      if responseJob.value.None? {
        return Ok(NoDuplicate);
      }
      var job := responseJob.value.value;
      var updated := jobs.ValidateAndUpdateExpiration(job.id, now);
      if updated.Fail? {
        return Err(updated.error);
      }
      r := Ok(CompletedDuplicate(job.parameters.callbackParams));
    }

    method CheckForExportProcessing(dup: DuplicationParams, newCallbacks: Option<seq<CallbackTarget>>) returns (r: Result<Option<JobResponse>, Error>)
      modifies jobs.store
      ensures Effect(r, jobs.store.State()) == ProcessingSpec(old(jobs.store.State()), dup, newCallbacks, jobs.cfg, jobs.geo)
    {
      var processingJob := jobs.FindExportJob(InProgress, dup, true);
      if processingJob.Err? {
        return Err(processingJob.error);
      }
      if processingJob.value.None? {
        processingJob := jobs.FindExportJob(Pending, dup, true);
        if processingJob.Err? {
          return Err(processingJob.error);
        }
      }
      if processingJob.value.None? {
        return Ok(None);
      }
      var job := processingJob.value.value;
      UpdateExportCallbackURLs(job, newCallbacks);
      r := Ok(Some(ProcessingResponse(job)));
    }

    method CheckForExportDuplicate(resourceId: string, version: string, dbId: string, roi: FeatureCollection, crs: string,
                                   callbackUrls: Option<seq<CallbackTarget>>, now: Timestamp) returns (r: Result<DuplicateResult, Error>)
      modifies jobs.store
      ensures Effect(r, jobs.store.State()) ==
                DuplicateSpec(old(jobs.store.State()), DuplicationParams(resourceId, version, dbId, roi, crs), callbackUrls, now, jobs.cfg, jobs.geo)
    {
      var dup := DuplicationParams(resourceId, version, dbId, roi, crs);
      var completedExists := CheckForExportCompleted(dup, now);
      if completedExists.Err? || completedExists.value.CompletedDuplicate? {
        return completedExists;
      }
      var processingExists := CheckForExportProcessing(dup, callbackUrls);
      if processingExists.Err? {
        return Err(processingExists.error);
      }
      if processingExists.value.None? {
        return Ok(NoDuplicate);
      }
      completedExists := CheckForExportCompleted(dup, now);
      if completedExists.Err? || completedExists.value.CompletedDuplicate? {
        return completedExists;
      }
      r := Ok(ProcessingDuplicate(processingExists.value.value.(isDuplicated := Some(true))));
    }

    /** The disk's free space less the buffered outstanding size of every running export. */
    method GetFreeStorage(disk: StorageStatus) returns (freeSpace: JsNumber)
      ensures freeSpace == FreeSpace(disk, jobs.store.runningJobs, jobs.cfg)
    {
      var processingJobs := jobs.store.FindAllProcessingExportJobs();
      var otherRunningJobsSize := Num(0.0);
      for i := 0 to |processingJobs|
        invariant otherRunningJobsSize == OutstandingSize(processingJobs[..i])
      {
        assert processingJobs[..i + 1][..i] == processingJobs[..i];
        otherRunningJobsSize := Plus(otherRunningJobsSize, RemainingEstimate(processingJobs[i]));
      }
      assert processingJobs[..|processingJobs|] == processingJobs;
      freeSpace := Minus(Num(disk.free), Times(otherRunningJobsSize, Num(jobs.cfg.storageFactorBuffer)));
    }

    /** Fails with InsufficientStorage unless the free space covers the estimate. */
    method ValidateFreeSpace(estimatesGpkgSize: real, disk: StorageStatus) returns (r: Outcome<Error>)
      ensures r == AdmitDecision(FreeSpace(disk, jobs.store.runningJobs, jobs.cfg), estimatesGpkgSize)
    {
      var diskFreeSpace := GetFreeStorage(disk);
      var isEnoughStorage := diskFreeSpace.Num? && diskFreeSpace.value - estimatesGpkgSize >= 0.0;
      r := if isEnoughStorage then Pass else Fail(InsufficientStorage);
    }
  }
}
