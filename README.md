# Export admission and deduplication — a Dafny model

This project models the core of a raster-export trigger service. The service accepts a request to export part of a raster layer as a GeoPackage. It then decides one of four things:

- the request is invalid;
- it is already satisfied by a finished export, whose callback data is returned and whose expiration is extended;
- it is already being produced by a running or pending job, which receives the request's callback targets;
- it needs a new export job, which is named and created in the Job Store.

The model covers these parts of that decision:

- **Parsing.** The requested region of interest (ROI) is parsed into geometry records.
- **Validation.** Each record's zoom band is checked against the source layer, and its footprint intersection is computed.
- **Duplicate detection.** The state machine searches for a Completed job first, then In-Progress, then Pending. After a processing hit it re-checks Completed once, because the job may have finished meanwhile.
- **Callback merge.** New callback targets are merged into a running job's list, deduplicated by URL only.
- **ROI similarity.** A rule decides whether two ROIs are the same request.
- **Expiration.** A reused finished job has its expiration extended.
- **Job creation.** The job-creation request body is built.
- **Size and storage.** The package-size estimate and the free-storage admission.
- **The request flow.** The whole flow, including the naming of the package files and of their relative path.

The model is organised as follows:

- **Modules.** The modules follow the source files:
  - `GeometryUtils` is src/utils/geometry.ts;
  - `Utils` is src/common/utils.ts;
  - `JobManager` is src/clients/jobManagerWrapper.ts;
  - `Validation` is src/export/models/validationManager.ts;
  - `Export` is src/export/models/exportManager.ts.
- **The Job Store.** The external Job Store is the class `JobStore.JobStore`:
  - job searches are answered, in order, from a scripted list of replies, so the race in which a job completes between two searches can be stated;
  - jobs fetched by id come from a map;
  - a write (`PUT /jobs/{id}`) replaces the parameters of the job it names in that map;
  - every write and every creation (`POST /jobs`) is logged.
- **Specifications and methods.** Each operation that talks to the store is first a function of the store's state, written as a value `StoreState`. The class methods are proved to perform exactly that call sequence and that change of state. The properties are proved as lemmas about those functions.
- **Foreign libraries.** turf and the tiling utilities are the total functions of one value of type `GeoLibrary`. They are never given properties of their own.
- **The `Common` module.** It holds the request, job, layer, configuration and error records.
- **Numbers.** All non-integer arithmetic is on `real`. JavaScript's NaN is carried explicitly (`JsNumber`) only in the free-storage sum, where a missing estimate makes the result NaN and so rejects every export.

## Model

| member | source | states |
|---|---|---|
| GeometryUtils.CheckFeatures | src/utils/geometry.ts:15-53 | The ROIs are compared by collection equality unless both are one-feature polygon collections. Otherwise they are similar iff the export polygon is inside the buffered or the plain job polygon, and its area is at least the configured percentage of the job's area. |
| GeometryUtils.NotContainedIsNotSimilar | src/utils/geometry.ts:30-38 | An export polygon outside both the buffered and the unbuffered job polygon is never similar. |
| GeometryUtils.CheckFeaturesBuffersJobRoiOnly | src/utils/geometry.ts:30-32 | Only the job ROI is buffered. Two geometry libraries that agree on everything except `buffer`, including the buffer of the job polygon, give the same verdict. |
| GeometryUtils.SanitizeBbox | src/utils/geometry.ts:55-77 | The result is null iff the intersection is null. Otherwise it is the grid-snapped bounding box of the intersection. A failure of the library is reported as the sanitize error. |
| Utils.ToGeometryRecord | src/common/utils.ts:18-32 | The record takes the feature's geometry. Its target resolution is the feature's `maxResolutionDeg`, and its zoom is the library's zoom of that. The minimum resolution defaults to the zoom-zero resolution, and the minimum zoom is derived from it. No sanitized box is set. |
| Utils.ParsedRecords | src/common/utils.ts:15-36 | There are never more records than features. |
| Utils.ParsedRecordsAppend | src/common/utils.ts:17-34 | Parsing distributes over concatenation, so the kept records stay in input order. |
| Utils.ParsedRecordsFromKeptFeatures | src/common/utils.ts:18 | Every record is the record of an input feature that has properties and a non-zero `maxResolutionDeg`. |
| Utils.ParsedRecordsAllKept | src/common/utils.ts:17-34 | When every feature is kept, the i-th record is the i-th feature's record. |
| Utils.ParsedRecordsNoneKept | src/common/utils.ts:18 | Features without a usable resolution give no records. |
| Utils.ParseFeatureCollection | src/common/utils.ts:15-36 | The loop returns exactly the parsed records of the features, in order. |
| Utils.TileEstimatedSize | src/common/utils.ts:59-72 | The JPEG constant for JPEG output; the PNG constant for every other format. |
| Utils.ZoomBatches | src/common/utils.ts:42-45 | One tile range per zoom from the minimum to the maximum inclusive, lowest zoom first; none when the band is inverted. |
| Utils.ZoomBatchesArea | src/common/utils.ts:42-54 | The areas of one record's ranges add up to the reference tile count of its zoom band. |
| Utils.AllBatchesArea | src/common/utils.ts:41-54 | The areas of all collected ranges add up to the reference sum, over records, of each record's tile count. |
| Utils.InvertedBandCountsNothing | src/common/utils.ts:42 | A record whose minimum zoom is above its zoom contributes no tiles. |
| Utils.CollectBatches | src/common/utils.ts:40-46 | The nested loop collects exactly each record's zoom band, record after record. |
| Utils.SumBatchesArea | src/common/utils.ts:48-54 | The second loop sums width times height of every collected range. |
| Utils.CalculateEstimateGpkgSize | src/common/utils.ts:38-57 | The estimate equals the per-tile size times the sum, over records and zooms in each band, of the tile-range area. An empty record list gives 0. |
| JobStore.FindJobsStep | src/clients/jobManagerWrapper.ts:84-88 | A job search consumes the next scripted reply and is logged. A failed or exhausted reply is an upstream error, and nothing else in the store changes. |
| JobStore.GetJobStep | src/clients/jobManagerWrapper.ts:95 | A fetch by id returns the stored job, or NotFound for an unknown id. |
| JobStore.ApplyPut | src/clients/jobManagerWrapper.ts:99-108 | A write replaces the parameters of the job it names, when that job is stored. No job is added or removed, and every other job is unchanged. |
| JobStore.ApplyPutsLastWriteWins | src/clients/jobManagerWrapper.ts:99-108 | After a sequence of writes the same jobs are stored. A job no write names is unchanged, and any other job holds the parameters of the last write to it. |
| JobStore.PutStep | src/clients/jobManagerWrapper.ts:99-108 | A write is appended to the write log. It replaces the named job's parameters, leaves every other job as it was, and changes nothing else. |
| JobStore.CreateStep | src/clients/jobManagerWrapper.ts:160 | A creation is logged and answered with the store's reply. |
| JobStore.JobStore.FindJobs | src/clients/jobManagerWrapper.ts:84-88 | The class performs a search exactly as the step function does. |
| JobStore.JobStore.GetJob | src/clients/jobManagerWrapper.ts:95 | The class answers a fetch as the step function does. |
| JobStore.JobStore.Put | src/clients/jobManagerWrapper.ts:99-108 | The class logs and applies a write as the step function does. |
| JobStore.JobStore.CreateJob | src/clients/jobManagerWrapper.ts:160 | The class performs a creation as the step function does. |
| JobStore.JobStore.FindAllProcessingExportJobs | src/export/models/validationManager.ts:187 | The running export jobs are the store's running jobs. |
| JobManager.FindJobsQueryFor | src/clients/jobManagerWrapper.ts:55-62 | The search is for the given status, the export's resource id and version, jobs not cleaned, and the configured export job type. |
| JobManager.FindExportJobWithMatchingParams | src/clients/jobManagerWrapper.ts:169-178 | No result iff no job matches. A match requires equal internal id, version and CRS, and a similar ROI. A result is a matching job with no matching job before it. |
| JobManager.FirstMatchIsFirst | src/clients/jobManagerWrapper.ts:170-176 | A matching job guarantees a result, and that result is the job itself when no earlier job matches. |
| JobManager.FindExportJobSpec | src/clients/jobManagerWrapper.ts:50-70 | The lookup changes the store only by the one search it logs. |
| JobManager.FindExportJobAnswers | src/clients/jobManagerWrapper.ts:50-70 | The lookup logs one search with the right criteria and writes nothing. It fails iff the search failed. An absent list answers "no job", and a list answers its first match. |
| JobManager.NewExpiration | src/clients/jobManagerWrapper.ts:93-94 | The new expiration is the configured number of days after the current time. |
| JobManager.ExtendedParameters | src/clients/jobManagerWrapper.ts:99-108 | The patch keeps every other parameter and the cleanup directory path, and replaces only the cleanup expiration. |
| JobManager.ExpirationWritesIffEarlier | src/clients/jobManagerWrapper.ts:91-113 | For a stored job the call succeeds. It writes iff the stored expiration is earlier than the new one, and then it makes exactly one write of the extended parameters, which become the stored job's parameters. Nothing else changes. |
| JobManager.NoCleanupParamsNoWrite | src/clients/jobManagerWrapper.ts:96-97 | A job without cleanup parameters has an invalid old date, which never compares earlier, so nothing is written. |
| JobManager.UnknownJobFailsExpiration | src/clients/jobManagerWrapper.ts:95 | An unknown job id fails with NotFound, and nothing is written. |
| JobManager.InitialJobParameters | src/clients/jobManagerWrapper.ts:121-137 | The stored parameters hold the ROI, the CRS and the `callbacks` of the request, together with the file names and paths. They hold no `callbackUrls`, no size estimate, no cleanup data and no callback data. |
| JobManager.CreateJobRequest | src/clients/jobManagerWrapper.ts:125-131 | Creation fails with "Invalid CRS" iff the CRS is not EPSG:4326. |
| JobManager.CreatedBodyShape | src/clients/jobManagerWrapper.ts:139-159 | The body has status Pending and percentage 0, and exactly one task: an init task with `blockDuplication: true`. Its additional identifiers are the relative directory path, and its resource id and product name are both the product id. |
| JobManager.CreateExportJobSpec | src/clients/jobManagerWrapper.ts:115-167 | An invalid CRS fails before anything is sent. Otherwise there is exactly one creation, answered with the store's job id and task ids and the status Pending. |
| JobManager.CreatedJobMatchesItsRequest | src/clients/jobManagerWrapper.ts:139-148 | The search for the export carries the created job's resource id and version. A reply holding only the created job answers that search with the job iff the ROI similarity rule accepts the ROI against itself, and with nothing otherwise. |
| JobManager.JobManagerWrapper.FindExportJob | src/clients/jobManagerWrapper.ts:50-70 | The client performs exactly the store search and the match of its specification. |
| JobManager.JobManagerWrapper.ValidateAndUpdateExpiration | src/clients/jobManagerWrapper.ts:91-113 | The client performs exactly the fetch and the conditional write of its specification. |
| JobManager.JobManagerWrapper.CreateExportJob | src/clients/jobManagerWrapper.ts:115-167 | The client performs exactly the CRS check, the creation and the response of its specification. |
| Validation.ValidateZoom | src/export/models/validationManager.ts:78-87 | Fails iff the zoom is above the source's maximum zoom or below the record's minimum zoom. The maximum check comes first, each with its own message. |
| Validation.ValidateRecord | src/export/models/validationManager.ts:97-107 | One record passes iff its zoom is valid and it intersects the footprint. Only its sanitized box changes. On success the box is the sanitized box. |
| Validation.ValidateAll | src/export/models/validationManager.ts:97-108 | Validation keeps the number of records. |
| Validation.FirstInvalid | src/export/models/validationManager.ts:97-108 | The index of the first record that fails: every record before it passes. |
| Validation.ValidateAllStopsAtFirstInvalid | src/export/models/validationManager.ts:97-108 | Records up to the first invalid one are validated, and records after it are untouched. The outcome is that of the first invalid record, or success. |
| Validation.ValidateAllSucceeds | src/export/models/validationManager.ts:97-109 | Success iff every record passes. Then every record has a sanitized box and no other field has changed. |
| Validation.FailureIsFinal | src/export/models/validationManager.ts:97-108 | Once a prefix has failed, the records after it are untouched and the outcome stays that failure. |
| Validation.ValidationManager.ValidateFeaturesCollection | src/export/models/validationManager.ts:89-110 | The loop over the array leaves it, and the outcome, exactly as the fail-fast validation of the original records says. |
| Validation.MergeCallbacks | src/export/models/validationManager.ts:166-176 | The stored list is a prefix of the merged list, which grows by at most the number of new targets. |
| Validation.MergeCallbacksUrls | src/export/models/validationManager.ts:170-175 | A URL is in the merged list iff it is in the stored list or among the new targets. |
| Validation.AcceptedCallbacks | src/export/models/validationManager.ts:170-175 | The accepted new targets are never more than the new targets. |
| Validation.MergeCallbacksAppendsAccepted | src/export/models/validationManager.ts:169-175 | The stored entries are kept in order. Exactly the new targets whose URL is not yet present are appended, in order. |
| Validation.KnownUrlIsNotAdded | src/export/models/validationManager.ts:171 | A target whose URL is already stored is not added, whatever its ROI. |
| Validation.MergeCallbacksKeepsUrlsDistinct | src/export/models/validationManager.ts:170-175 | A stored list without repeated URLs stays without repeated URLs. |
| Validation.MergedParameters | src/export/models/validationManager.ts:166-176 | Only the callback list changes. It becomes exactly the new targets when none is stored, and otherwise the stored list followed by the accepted new targets. |
| Validation.UpdateCallbacksSpec | src/export/models/validationManager.ts:160-180 | No new targets means no write. Otherwise there is exactly one write of the job's full parameters with the merged list, and the stored job takes those parameters. |
| Validation.ValidationManager.UpdateExportCallbackURLs | src/export/models/validationManager.ts:160-180 | The method's loop performs exactly the merge and the single write of its specification. |
| Validation.TaskIds | src/export/models/validationManager.ts:154 | The job's task ids, in order. |
| Validation.ProcessingResponse | src/export/models/validationManager.ts:152-156 | The response carries the job id and task ids. Its status is Pending iff the job is pending, and In-Progress otherwise. |
| Validation.CompletedSpec | src/export/models/validationManager.ts:128-139 | The completed check never reports a processing duplicate. |
| Validation.DuplicateSpec | src/export/models/validationManager.ts:44-76 | A processing duplicate is always reported with `isDuplicated` set. |
| Validation.CompletedMisses | src/export/models/validationManager.ts:129-139 | A completed search without a match answers nothing and only consumes and logs that search. |
| Validation.CompletedHits | src/export/models/validationManager.ts:131-137 | A completed match extends the job's expiration and answers the job's callback data. |
| Validation.InProgressHits | src/export/models/validationManager.ts:147-156 | An in-progress match skips the pending search. It merges the callbacks into that job and answers its response. |
| Validation.PendingHits | src/export/models/validationManager.ts:147-156 | Without an in-progress match, a pending match does the same after one more search. |
| Validation.ProcessingMisses | src/export/models/validationManager.ts:147-150 | Without either match nothing is written, and the answer is "none". |
| Validation.ProcessingThenNotCompleted | src/export/models/validationManager.ts:65-72 | After a processing hit and no completed match on the second look, the processing response is returned with `isDuplicated` set. |
| Validation.ProcessingThenCompleted | src/export/models/validationManager.ts:65-71 | After a processing hit, a completed match on the second look wins. |
| Validation.CompletedFirst | src/export/models/validationManager.ts:60-63 | A first completed match is returned at once. No processing search is made and no callback is written. |
| Validation.CompletedFirstExtendsExpiration | src/export/models/validationManager.ts:60-63 | A first completed match with an earlier expiration is returned after exactly one expiration write. |
| Validation.RaceRecheckReturnsCompleted | tests/unit/export/models/validationManager.spec.ts:149-174 | The race: no completed job, then a job in progress, then a completed match. The completed result is returned, after the callbacks were merged into the running job. The second expiration check reads the job as that merge left it. |
| Validation.InProgressIsDuplicate | src/export/models/validationManager.ts:65-73 | A job in progress and still no completed match gives a processing duplicate with `isDuplicated` set. |
| Validation.PendingFallback | src/export/models/validationManager.ts:147-149 | The pending search is made only after the in-progress search found nothing, and a pending match is reported as a duplicate. |
| Validation.NoMatchNoDuplicate | src/export/models/validationManager.ts:75 | No match in any of the three searches gives no duplicate and no write. |
| Validation.UnavailableStoreFails | src/export/models/validationManager.ts:60 | A failed first search fails the whole check, before any other search or write. |
| Validation.CompletedOnlyWrites | src/export/models/validationManager.ts:128-139 | The completed check creates nothing and leaves the running jobs alone. The stored jobs change only by the writes it appends to the write log, applied in order. |
| Validation.ProcessingOnlyWrites | src/export/models/validationManager.ts:141-158 | The processing check creates nothing and leaves the running jobs alone. The stored jobs change only by the writes it appends to the write log, applied in order. |
| Validation.DuplicateCheckCreatesNothing | src/export/models/validationManager.ts:44-76 | The whole duplicate check never creates a job and never adds or removes a stored job. A stored job changes only by the writes the check appends to the write log, and then holds the parameters of the last of them that names it. |
| Validation.ValidationManager.CheckForExportCompleted | src/export/models/validationManager.ts:128-139 | The method performs exactly the calls and the state change of its specification. |
| Validation.ValidationManager.CheckForExportProcessing | src/export/models/validationManager.ts:141-158 | The method performs exactly the calls and the state change of its specification. |
| Validation.ValidationManager.CheckForExportDuplicate | src/export/models/validationManager.ts:44-76 | The method performs exactly the calls and the state change of its specification. |
| Validation.RemainingEstimate | src/export/models/validationManager.ts:189-193 | What a job still needs is NaN iff its estimate is missing. |
| Validation.SumRemainingAppend | src/export/models/validationManager.ts:188-195 | The reference sum grows by the remaining estimate of an added job. |
| Validation.OutstandingSizeIsSum | src/export/models/validationManager.ts:185-195 | With every estimate known, the loop's total is the sum of estimate times (1 - percentage/100), using the plain estimate for a zero or absent percentage. |
| Validation.OutstandingSizeNaN | src/export/models/validationManager.ts:189-194 | The total is NaN iff some running job has no estimate. |
| Validation.FreeSpaceWithKnownEstimates | src/export/models/validationManager.ts:196 | With every estimate known, the free space is the disk's free bytes less the buffer factor times that sum. |
| Validation.AdmitDecision | src/export/models/validationManager.ts:116-125 | The export fails with InsufficientStorage iff the free space is NaN or the free space less the estimate is negative. |
| Validation.AdmissionWithKnownEstimates | src/export/models/validationManager.ts:112-126 | With every estimate known, the export is rejected iff free less buffered sum less estimate is negative. |
| Validation.MissingEstimateRejects | src/export/models/validationManager.ts:189-196 | One running job without an estimate makes every export fail for lack of storage. |
| Validation.AdmissionExamples | tests/unit/export/models/validationManager.spec.ts:341-353 | An estimate of 1111 is accepted with 10000 free bytes and rejected with 1. |
| Validation.ValidationManager.GetFreeStorage | src/export/models/validationManager.ts:182-199 | The loop computes exactly the free space of the disk and the running jobs. |
| Validation.ValidationManager.ValidateFreeSpace | src/export/models/validationManager.ts:112-126 | The method decides exactly as the admission rule does. |
| Export.FindLayer | src/clients/rasterCatalogManagerClient.ts:25-37 | An empty catalog reply is NotFound for the requested id. Otherwise the layer is the first record. |
| Export.DefaultRoi | src/export/models/exportManager.ts:44-48 | The default ROI is one feature: the layer footprint with the layer's `maxResolutionDeg`. |
| Export.RequestRoi | src/export/models/exportManager.ts:42-57 | The request's ROI when given, and the default ROI otherwise. |
| Export.DefaultRoiParsesToOneRecord | src/export/models/exportManager.ts:44-48 | For a layer with a non-zero resolution, the default ROI parses to exactly one record at the layer's resolution and zoom. |
| Export.CallbackTargets | src/export/models/exportManager.ts:75 | No targets without URLs. Otherwise one target per URL, in order, each carrying the request's ROI. |
| Export.ReplaceAll | src/export/models/exportManager.ts:132-133 | Every occurrence of the character is replaced, and nothing else changes. |
| Export.NatToString | src/export/models/exportManager.ts:133 | The decimal text of a number is a non-empty run of digits. |
| Export.NatToStringRoundTrip | src/export/models/exportManager.ts:133 | Reading the digits back gives the number. |
| Export.IntToString | src/export/models/exportManager.ts:133 | The text of an integer starts with a minus sign iff the integer is negative, followed by digits. |
| Export.MaxZoom | src/export/models/exportManager.ts:130 | The maximum zoom is one of the records' zooms and at least every one of them. |
| Export.MaxZoomText | src/export/models/exportManager.ts:130 | The maximum of no records is "-Infinity", and only then. |
| Export.DateStamp | src/export/models/exportManager.ts:131-132 | The time stamp keeps its length. It has no '-', '.' or ':' left, and every other character is kept. |
| Export.ExportFileNamePrefixParts | src/export/models/exportManager.ts:129-134 | The prefix is the product type, the product id, the version with each '.' replaced by '_', the text of the top zoom level and the date stamp. The parts come in that order, each at its own offset, and each but the last is followed by an underscore. |
| Export.ToUpperAscii | src/export/models/exportManager.ts:34 | Upper-casing keeps the length and raises exactly the lower-case ASCII letters. |
| Export.Separator | src/export/models/exportManager.ts:125-127 | '/' iff the (upper-cased) provider is S3, and the platform separator otherwise. |
| Export.ProviderIsS3 | src/export/models/exportManager.ts:34 | A configured provider upper-cases to S3 iff it is "s3" or "S3". |
| Export.InitRequest | src/export/models/exportManager.ts:94-120 | The worker input defaults the CRS and the priority, and carries the ROI and the callbacks. It names the data and metadata files after the prefix. The package path is the ROI identifier, the separator and the package name. |
| Export.UnknownLayerTouchesNothing | src/export/models/exportManager.ts:40 | An unknown layer fails with NotFound before the Job Store is asked anything. |
| Export.ValidationFailureTouchesNothing | src/export/models/exportManager.ts:68-76 | A request that fails feature validation fails without any Job Store call. |
| Export.DuplicateIsReturnedAsIs | src/export/models/exportManager.ts:76-91 | A duplicate's result is returned unchanged and no job is created. For a request that passes validation, the answer and the store are exactly those of the duplicate check when it found a duplicate or failed. A job is created only when the request passed validation and the check found none. |
| Export.NovelRequestCreatesOneJob | src/export/models/exportManager.ts:93-122 | A valid request without a duplicate creates exactly one job and answers with it as pending. The job is named after the product, has the defaulted CRS and priority and the request's ROI and callbacks, and is identified by the ROI identifier. Its data and metadata file names are the prefix with `.gpkg` and `.json`, and its package path is the ROI identifier, the separator and the package name. |
| Export.ExportManager.CreateExport | src/export/models/exportManager.ts:37-123 | The method performs exactly the store calls, the state change and the answer of the request flow's specification. |

## Left out

- HTTP, routing, controllers, the storage and task endpoints, logging, tracing and configuration lookup. Configuration is one `Config` value.
- turf, the tiling utilities and the zoom and resolution conversions. They are uninterpreted fields of `GeoLibrary`, with no properties assumed.
- Floating point is modelled as exact `real` arithmetic. No rounding is modelled, and NaN only in the free-storage sum. A zero job area in the ROI similarity ratio is read as IEEE division would read it.
- The clock is a parameter. `now` is a millisecond count and `isoTime` the ISO text of the request time. Adding days with `setDate` is modelled as adding whole days of milliseconds, so daylight-saving shifts are not modelled. One `now` serves both completed checks of a duplicate check, while the source reads the clock afresh in each expiration update. The file-name time `isoTime` is a separate parameter, not tied to `now`.
- `generateGeoIdentifier` is imported by src/export/models/exportManager.ts but is not defined in src/common/utils.ts. It is a parameter of the request flow.
- The catalog search reply is a parameter. Only its empty-reply contract is modelled.
- The disk probe (`getStorageStatus`) is a parameter.
- `findAllProcessingExportJobs` is called at src/export/models/validationManager.ts:187 but is not defined in src/clients/jobManagerWrapper.ts. It is answered with the store's list of running jobs.
- Writes and creations in the Job Store always succeed. Searches can fail as a failed request, while fetches by id fail only for an unknown id: a transport failure of a fetch is not modelled.
- JobStore.FindJobsStep: search replies are scripted, so a write changes the jobs fetched by id but not what later searches return.
- Concurrency: a second request between the searches of one duplicate check is only visible through the scripted replies. No cross-request exclusion is claimed.
- JavaScript's `toUpperCase` is modelled on ASCII letters only.
- A record's `sanitizedBox` is modelled as an option, so the difference between JavaScript's null and undefined is not modelled.
- Utils.ToGeometryRecord: a feature's `minResolutionDeg` is an option, so an explicit null is read as absent and defaults to the zoom-zero resolution. The source defaults only undefined and would pass null on to the zoom conversion.
- Validation.RemainingEstimate: an absent `gpkgEstimatedSize` is always undefined and gives NaN. A stored null, which JavaScript arithmetic reads as 0, is not modelled. A failing disk probe or running-jobs search is not modelled either, since both are parameters. GeometryUtils.SanitizeBbox reports the fixed sanitize message without the error details the source appends to it.
- The `expirationDate` computed at src/clients/jobManagerWrapper.ts:117-118 is never used, and is left out.
- `targetFormat` and `outputFormatStrategy` of the worker input are not written to the created job. The model keeps them in the worker input only.
- Utils.CalculateEstimateGpkgSize: requires every record to have a sanitized box. The code reads the box without a check, and an absent box would be passed to the tiling library as undefined.
- The created job body writes `callbacks` and omits `callbackUrls` and `gpkgEstimatedSize`, although test fixtures expect them. The model follows the code.
- `createExport` calls `validationManager.validateLayer`, which the validation manager does not define. The model uses the catalog search semantics of `findLayer`.
- `createExport` never calls `calculateEstimateGpkgSize` or `validateFreeSpace`. They are modelled as their own operations, and the request flow does not perform them.
