/**
 * The records the export admission core reads and writes, its configuration,
 * and the foreign geometry and tiling library it calls, as values.
 */
module Common {
  import opened Wrappers

  type JobId = string

  /** A point in time, in milliseconds since the Unix epoch (UTC). */
  type Timestamp = int

  const MS_PER_DAY: int := 86_400_000

  /** The resolution of zoom level 0, used when a feature gives no minimum resolution. */
  const ZOOM_ZERO_RESOLUTION: real := 0.703125

  /** The only CRS a job can be created with. */
  const SUPPORTED_CRS: string := "EPSG:4326"

  /**
   * A JavaScript number as far as the free-space arithmetic needs it: a real value,
   * or NaN, which arithmetic with `undefined` produces and which no comparison satisfies.
   */
  datatype JsNumber = Num(value: real) | NaN

  function Plus(a: JsNumber, b: JsNumber): JsNumber {
    if a.Num? && b.Num? then Num(a.value + b.value) else NaN
  }

  function Times(a: JsNumber, b: JsNumber): JsNumber {
    if a.Num? && b.Num? then Num(a.value * b.value) else NaN
  }

  function Minus(a: JsNumber, b: JsNumber): JsNumber {
    if a.Num? && b.Num? then Num(a.value - b.value) else NaN
  }

  /** The Job Store's operation status. */
  datatype OperationStatus = Pending | InProgress | Completed | Failed | Expired | Aborted

  // ---- GeoJSON ------------------------------------------------------------

  datatype GeometryKind = Polygon | MultiPolygon | OtherGeometry

  /** A GeoJSON geometry; its coordinates are only ever looked at by the geometry library. */
  datatype Geometry = Geometry(kind: GeometryKind, coordinates: seq<real>)

  /** The properties of an ROI feature that the core reads. */
  datatype FeatureProperties = FeatureProperties(maxResolutionDeg: Option<real>, minResolutionDeg: Option<real>)

  datatype Feature = Feature(geometry: Geometry, properties: Option<FeatureProperties>)

  datatype FeatureCollection = FeatureCollection(features: seq<Feature>)

  /** A bounding box [west, south, east, north] in degrees. */
  datatype BBox = BBox(west: real, south: real, east: real, north: real)

  /** A rectangle of tiles at one zoom level. */
  datatype TileRange = TileRange(minX: int, minY: int, maxX: int, maxY: int, zoom: int)

  /** One ROI feature prepared for validation and size estimation. */
  datatype GeometryRecord = GeometryRecord(
    geometry: Geometry,
    targetResolutionDeg: real,
    targetResolutionMeter: real,
    minResolutionDeg: real,
    minZoomLevel: int,
    zoomLevel: int,
    sanitizedBox: Option<BBox>)

  // ---- Jobs ---------------------------------------------------------------

  /** A callback target; the ROI is optional. */
  datatype CallbackTarget = CallbackTarget(url: string, roi: Option<FeatureCollection>)

  datatype Links = Links(dataURI: string, metadataURI: string)

  /** What a completed export reports to its callbacks. */
  datatype CallbackParams = CallbackParams(
    jobId: JobId,
    recordCatalogId: string,
    links: Links,
    fileSize: Option<int>,
    description: Option<string>)

  /** Expiration dates are stored as text; `None` is an absent or unparseable date. */
  datatype CleanupDataParams = CleanupDataParams(directoryPath: Option<string>, cleanupExpirationTimeUTC: Option<Timestamp>)

  /**
   * `callbackUrls` is the list the duplicate check merges into; `callbacks` is the
   * field job creation writes. They are two different fields of the stored job.
   */
  datatype ExportInputParams = ExportInputParams(
    roi: FeatureCollection,
    crs: string,
    callbackUrls: Option<seq<CallbackTarget>>,
    callbacks: Option<seq<CallbackTarget>>)

  datatype AdditionalParams = AdditionalParams(
    fileNamesTemplates: Links,
    relativeDirectoryPath: string,
    packageRelativePath: string,
    gpkgEstimatedSize: Option<real>)

  datatype ExportJobParameters = ExportJobParameters(
    exportInputParams: ExportInputParams,
    additionalParams: AdditionalParams,
    cleanupDataParams: Option<CleanupDataParams>,
    callbackParams: Option<CallbackParams>)

  datatype Task = Task(id: string)

  /** An export job as the Job Store returns it. */
  datatype ExportJob = ExportJob(
    id: JobId,
    resourceId: string,
    version: string,
    internalId: string,
    status: OperationStatus,
    percentage: Option<real>,
    parameters: ExportJobParameters,
    tasks: seq<Task>)

  /** The identity of a logical export, independent of its callback targets. */
  datatype DuplicationParams = DuplicationParams(resourceId: string, version: string, dbId: string, roi: FeatureCollection, crs: string)

  /** What a new or attached-to job is reported as. */
  datatype JobResponse = JobResponse(jobId: JobId, taskIds: seq<string>, status: OperationStatus, isDuplicated: Option<bool>)

  datatype TaskParameters = TaskParameters(blockDuplication: bool)

  datatype TaskBody = TaskBody(taskType: string, parameters: TaskParameters)

  /** The body of a job-creation request to the Job Store. */
  datatype CreateJobBody = CreateJobBody(
    resourceId: string,
    version: string,
    jobType: string,
    domain: string,
    parameters: ExportJobParameters,
    internalId: string,
    productType: string,
    productName: string,
    priority: int,
    description: Option<string>,
    status: OperationStatus,
    percentage: int,
    additionalIdentifiers: string,
    tasks: seq<TaskBody>)

  /** The Job Store's answer to a job creation. */
  datatype CreatedJob = CreatedJob(id: JobId, taskIds: seq<string>)

  // ---- Catalog and requests ---------------------------------------------------

  datatype TileFormat = Jpeg | Png

  datatype TileFormatStrategy = Mixed | Fixed

  datatype LayerMetadata = LayerMetadata(
    productId: string,
    productVersion: string,
    productType: string,
    maxResolutionDeg: real,
    footprint: Geometry,
    tileOutputFormat: TileFormat)

  datatype CreateExportRequest = CreateExportRequest(
    dbId: string,
    crs: Option<string>,
    priority: Option<int>,
    roi: Option<FeatureCollection>,
    callbackUrls: Option<seq<string>>,
    description: Option<string>)

  /** The input handed to job creation. */
  datatype ExportInitRequest = ExportInitRequest(
    crs: string,
    roi: FeatureCollection,
    callbacks: Option<seq<CallbackTarget>>,
    fileNamesTemplates: Links,
    relativeDirectoryPath: string,
    packageRelativePath: string,
    dbId: string,
    priority: int,
    version: string,
    cswProductId: string,
    productType: string,
    targetFormat: TileFormat,
    outputFormatStrategy: TileFormatStrategy,
    description: Option<string>)

  datatype StorageStatus = StorageStatus(free: real, size: real)

  // ---- Errors ------------------------------------------------------------------

  datatype BadRequestReason =
    | ResolutionFinerThanSource(requestedResolutionDeg: real, sourceResolutionDeg: real)
    | ResolutionBelowMinimum(zoomLevel: int, minZoomLevel: int)
    | NoIntersection(geometry: Geometry)

  datatype Error =
    | BadRequest(reason: BadRequestReason)
    | InsufficientStorage
    | NotFound(id: string)
    | InternalError(message: string)
    | UpstreamError

  // ---- Configuration and foreign libraries ------------------------------------

  datatype Config = Config(
    exportJobType: string,
    initTaskType: string,
    jobDomain: string,
    cleanupExpirationDays: int,
    roiBufferMeter: real,
    minContainedPercentage: real,
    jpegTileEstimatedSizeInBytes: real,
    pngTileEstimatedSizeInBytes: real,
    storageFactorBuffer: real,
    tilesProvider: string,
    defaultCrs: string,
    defaultPriority: int)

  /** The outcome of a library call that may throw. */
  datatype LibResult<T> = Returned(value: T) | Threw

  /**
   * The geometry and tiling functions the core calls (turf and the tiling utilities),
   * left uninterpreted: the model claims nothing about them.
   */
  datatype GeoLibrary = GeoLibrary(
    featureCollectionsEqual: (FeatureCollection, FeatureCollection) -> bool,
    buffer: (Geometry, real) -> Geometry,
    contains: (Geometry, Geometry) -> bool,
    area: Geometry -> real,
    intersect: (Geometry, Geometry) -> LibResult<Option<Geometry>>,
    bbox: Geometry -> BBox,
    snapToGrid: (BBox, int) -> LibResult<BBox>,
    zoomOf: real -> int,
    resolutionMeterOf: int -> real,
    tileRange: (BBox, int) -> TileRange)
}
