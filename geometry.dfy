/**
 * ROI similarity and footprint intersection (src/utils/geometry.ts).
 * Every geometric computation is a call into the library value `geo`.
 */
module GeometryUtils {
  import opened Wrappers
  import opened Common

  const SANITIZE_BBOX_ERROR: string := "Error occurred while trying to sanitized bbox"

  /** Exactly one feature, and it is a polygon. */
  predicate IsSinglePolygonFeature(fc: FeatureCollection) {
    |fc.features| == 1 && fc.features[0].geometry.kind == Polygon
  }

  /** The export polygon lies inside the job polygon, or inside the job polygon grown by the buffer. */
  predicate IsContained(jobPolygon: Geometry, exportPolygon: Geometry, geo: GeoLibrary, cfg: Config) {
    geo.contains(geo.buffer(jobPolygon, cfg.roiBufferMeter), exportPolygon) || geo.contains(jobPolygon, exportPolygon)
  }

  /**
   * `(exportArea / jobArea) * 100 >= minContainedPercentage` in IEEE arithmetic: a zero job area
   * gives +Infinity for a positive export area, and -Infinity or NaN otherwise.
   */
  predicate SufficientlyContained(exportArea: real, jobArea: real, minContainedPercentage: real) {
    if jobArea == 0.0 then exportArea > 0.0
    else (exportArea / jobArea) * 100.0 >= minContainedPercentage
  }

  /**
   * Whether an export ROI counts as the same request as a stored job's ROI: plain collection
   * equality unless both are single polygons; otherwise containment in the job polygon
   * (buffered or not) and a minimum share of the job's area.
   */
  function CheckFeatures(jobRoi: FeatureCollection, exportRoi: FeatureCollection, geo: GeoLibrary, cfg: Config): (similar: bool)
    ensures !IsSinglePolygonFeature(jobRoi) || !IsSinglePolygonFeature(exportRoi) ==>
              similar == geo.featureCollectionsEqual(jobRoi, exportRoi)
    ensures IsSinglePolygonFeature(jobRoi) && IsSinglePolygonFeature(exportRoi) ==>
              (similar <==>
                 IsContained(jobRoi.features[0].geometry, exportRoi.features[0].geometry, geo, cfg) &&
                 SufficientlyContained(geo.area(exportRoi.features[0].geometry), geo.area(jobRoi.features[0].geometry), cfg.minContainedPercentage))
  {
    if !IsSinglePolygonFeature(jobRoi) || !IsSinglePolygonFeature(exportRoi) then
      geo.featureCollectionsEqual(jobRoi, exportRoi)
    else
      var jobPolygon := jobRoi.features[0].geometry;
      var exportPolygon := exportRoi.features[0].geometry;
      if !IsContained(jobPolygon, exportPolygon, geo, cfg) then
        false
      else
        SufficientlyContained(geo.area(exportPolygon), geo.area(jobPolygon), cfg.minContainedPercentage)
  }

  /**
   * The check is asymmetric: only the job ROI is buffered. Two libraries that differ only in
   * `buffer`, and agree on the buffer of the job polygon, give the same verdict.
   */
  lemma CheckFeaturesBuffersJobRoiOnly(jobRoi: FeatureCollection, exportRoi: FeatureCollection, geo: GeoLibrary, geo': GeoLibrary, cfg: Config)
    requires geo' == geo.(buffer := geo'.buffer)
    requires IsSinglePolygonFeature(jobRoi)
    requires geo'.buffer(jobRoi.features[0].geometry, cfg.roiBufferMeter) == geo.buffer(jobRoi.features[0].geometry, cfg.roiBufferMeter)
    ensures CheckFeatures(jobRoi, exportRoi, geo, cfg) == CheckFeatures(jobRoi, exportRoi, geo', cfg)
  {
  }

  /** An export polygon outside both the buffered and the plain job polygon is never similar. */
  lemma NotContainedIsNotSimilar(jobRoi: FeatureCollection, exportRoi: FeatureCollection, geo: GeoLibrary, cfg: Config)
    requires IsSinglePolygonFeature(jobRoi) && IsSinglePolygonFeature(exportRoi)
    requires !geo.contains(geo.buffer(jobRoi.features[0].geometry, cfg.roiBufferMeter), exportRoi.features[0].geometry)
    requires !geo.contains(jobRoi.features[0].geometry, exportRoi.features[0].geometry)
    ensures !CheckFeatures(jobRoi, exportRoi, geo, cfg)
  {
  }

  /**
   * The tile-grid-aligned bounding box of the intersection of `polygon` with `footprint`:
   * `None` when they do not intersect, and an internal error when the library throws.
   */
  function SanitizeBbox(polygon: Geometry, footprint: Geometry, zoom: int, geo: GeoLibrary): (r: Result<Option<BBox>, Error>)
    ensures (r == Ok(None)) <==> geo.intersect(polygon, footprint) == Returned(None)
    ensures r.Ok? && r.value.Some? <==>
              geo.intersect(polygon, footprint).Returned? && geo.intersect(polygon, footprint).value.Some? &&
              geo.snapToGrid(geo.bbox(geo.intersect(polygon, footprint).value.value), zoom).Returned?
    ensures r.Ok? && r.value.Some? ==>
              r.value.value == geo.snapToGrid(geo.bbox(geo.intersect(polygon, footprint).value.value), zoom).value
    ensures r.Err? ==> r.error == InternalError(SANITIZE_BBOX_ERROR)
  {
    match geo.intersect(polygon, footprint)
    case Threw => Err(InternalError(SANITIZE_BBOX_ERROR))
    case Returned(None) => Ok(None)
    case Returned(Some(intersection)) =>
      match geo.snapToGrid(geo.bbox(intersection), zoom)
      case Threw => Err(InternalError(SANITIZE_BBOX_ERROR))
      case Returned(snapped) => Ok(Some(snapped))
  }
}
