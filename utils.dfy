/**
 * Turning an ROI into geometry records, and estimating the size of the package they
 * produce (src/common/utils.ts).
 */
module Utils {
  import opened Wrappers
  import opened Common

  // ---- Parsing ---------------------------------------------------------------

  /** A feature is kept when it has properties and a truthy (present, non-zero) `maxResolutionDeg`. */
  predicate HasTargetResolution(f: Feature) {
    f.properties.Some? && f.properties.value.maxResolutionDeg.Some? && f.properties.value.maxResolutionDeg.value != 0.0
  }

  /** The record derived from one kept feature. */
  function ToGeometryRecord(f: Feature, geo: GeoLibrary): (rec: GeometryRecord)
    requires HasTargetResolution(f)
    ensures rec.geometry == f.geometry && rec.sanitizedBox == None
    ensures rec.targetResolutionDeg == f.properties.value.maxResolutionDeg.value
    ensures rec.zoomLevel == geo.zoomOf(rec.targetResolutionDeg)
    ensures rec.targetResolutionMeter == geo.resolutionMeterOf(rec.zoomLevel)
    ensures f.properties.value.minResolutionDeg == None ==> rec.minResolutionDeg == ZOOM_ZERO_RESOLUTION
    ensures f.properties.value.minResolutionDeg.Some? ==> rec.minResolutionDeg == f.properties.value.minResolutionDeg.value
    ensures rec.minZoomLevel == geo.zoomOf(rec.minResolutionDeg)
  {
    var props := f.properties.value;
    var targetResolutionDeg := props.maxResolutionDeg.value;
    var zoomLevel := geo.zoomOf(targetResolutionDeg);
    var minResolutionDeg := props.minResolutionDeg.GetOr(ZOOM_ZERO_RESOLUTION);
    GeometryRecord(
      geometry := f.geometry,
      targetResolutionDeg := targetResolutionDeg,
      targetResolutionMeter := geo.resolutionMeterOf(zoomLevel),
      minResolutionDeg := minResolutionDeg,
      minZoomLevel := geo.zoomOf(minResolutionDeg),
      zoomLevel := zoomLevel,
      sanitizedBox := None)
  }

  /** The records of the kept features, in the order of the features. */
  function ParsedRecords(features: seq<Feature>, geo: GeoLibrary): (records: seq<GeometryRecord>)
    ensures |records| <= |features|
    decreases |features|
  {
    if features == [] then []
    else
      var last := features[|features| - 1];
      ParsedRecords(features[..|features| - 1], geo) + (if HasTargetResolution(last) then [ToGeometryRecord(last, geo)] else [])
  }

  /** Parsing distributes over concatenation, so the kept records stay in input order. */
  lemma {:induction false} ParsedRecordsAppend(a: seq<Feature>, b: seq<Feature>, geo: GeoLibrary)
    ensures ParsedRecords(a + b, geo) == ParsedRecords(a, geo) + ParsedRecords(b, geo)
    decreases |b|
  {
    if b == [] {
      assert a + b == a;
    } else {
      var b' := b[..|b| - 1];
      assert (a + b)[..|a + b| - 1] == a + b';
      assert (a + b)[|a + b| - 1] == b[|b| - 1];
      ParsedRecordsAppend(a, b', geo);
    }
  }

  /** Every record comes from a kept feature of the input. */
  lemma {:induction false} ParsedRecordsFromKeptFeatures(features: seq<Feature>, geo: GeoLibrary)
    ensures forall rec :: rec in ParsedRecords(features, geo) ==>
              exists f :: f in features && HasTargetResolution(f) && rec == ToGeometryRecord(f, geo)
    decreases |features|
  {
    if features != [] {
      var init := features[..|features| - 1];
      ParsedRecordsFromKeptFeatures(init, geo);
      forall rec | rec in ParsedRecords(features, geo)
        ensures exists f :: f in features && HasTargetResolution(f) && rec == ToGeometryRecord(f, geo)
      {
        if rec in ParsedRecords(init, geo) {
          var f :| f in init && HasTargetResolution(f) && rec == ToGeometryRecord(f, geo);
          assert f in features;
        } else {
          assert features[|features| - 1] in features;
        }
      }
    }
  }

  /** When every feature is kept, the i-th record is that of the i-th feature. */
  lemma {:induction false} ParsedRecordsAllKept(features: seq<Feature>, geo: GeoLibrary)
    requires forall i :: 0 <= i < |features| ==> HasTargetResolution(features[i])
    ensures |ParsedRecords(features, geo)| == |features|
    ensures forall i :: 0 <= i < |features| ==> ParsedRecords(features, geo)[i] == ToGeometryRecord(features[i], geo)
    decreases |features|
  {
    if features != [] {
      ParsedRecordsAllKept(features[..|features| - 1], geo);
    }
  }

  /** A collection none of whose features carries a usable resolution parses to no records. */
  lemma {:induction false} ParsedRecordsNoneKept(features: seq<Feature>, geo: GeoLibrary)
    requires forall i :: 0 <= i < |features| ==> !HasTargetResolution(features[i])
    ensures ParsedRecords(features, geo) == []
    decreases |features|
  {
    if features != [] {
      ParsedRecordsNoneKept(features[..|features| - 1], geo);
    }
  }

  /** `parseFeatureCollection`: push one record per kept feature, in order. */
  method ParseFeatureCollection(fc: FeatureCollection, geo: GeoLibrary) returns (records: seq<GeometryRecord>)
    ensures records == ParsedRecords(fc.features, geo)
    ensures |records| <= |fc.features|
  {
    records := [];
    var i := 0;
    while i < |fc.features|
      invariant 0 <= i <= |fc.features|
      invariant records == ParsedRecords(fc.features[..i], geo)
    {
      var feature := fc.features[i];
      assert fc.features[..i + 1][..i] == fc.features[..i];
      if HasTargetResolution(feature) {
        records := records + [ToGeometryRecord(feature, geo)];
      }
      i := i + 1;
    }
    assert fc.features[..i] == fc.features;
  }

  // ---- Size estimation -----------------------------------------------------------

  /** The per-tile byte estimate: the JPEG constant for JPEG, the PNG constant for any other format. */
  function TileEstimatedSize(format: TileFormat, cfg: Config): (bytes: real)
    ensures format == Jpeg ==> bytes == cfg.jpegTileEstimatedSizeInBytes
    ensures format != Jpeg ==> bytes == cfg.pngTileEstimatedSizeInBytes
  {
    if format == Jpeg then cfg.jpegTileEstimatedSizeInBytes else cfg.pngTileEstimatedSizeInBytes
  }

  function RangeArea(t: TileRange): int {
    (t.maxX - t.minX) * (t.maxY - t.minY)
  }

  /** The tile ranges of `box` at zooms `lo` to `hi` inclusive, lowest zoom first. */
  function ZoomBatches(box: BBox, lo: int, hi: int, geo: GeoLibrary): (batches: seq<TileRange>)
    ensures |batches| == if lo <= hi then hi - lo + 1 else 0
    ensures forall k :: 0 <= k < |batches| ==> batches[k] == geo.tileRange(box, lo + k)
    decreases hi - lo + 1
  {
    if lo > hi then [] else ZoomBatches(box, lo, hi - 1, geo) + [geo.tileRange(box, hi)]
  }

  /** Every record's batches, record after record: what the nested loop pushes. */
  function AllBatches(records: seq<GeometryRecord>, geo: GeoLibrary): seq<TileRange>
    requires forall i :: 0 <= i < |records| ==> records[i].sanitizedBox.Some?
    decreases |records|
  {
    if records == [] then []
    else
      var last := records[|records| - 1];
      AllBatches(records[..|records| - 1], geo) + ZoomBatches(last.sanitizedBox.value, last.minZoomLevel, last.zoomLevel, geo)
  }

  /** The summed area of a list of tile ranges, accumulated front to back. */
  function BatchesArea(batches: seq<TileRange>): int
    decreases |batches|
  {
    if batches == [] then 0 else BatchesArea(batches[..|batches| - 1]) + RangeArea(batches[|batches| - 1])
  }

  /** Reference definition: the tiles of `box` over zooms `lo..hi`, counted from the lowest zoom up. */
  function TilesAtZooms(box: BBox, lo: int, hi: int, geo: GeoLibrary): int
    decreases hi - lo + 1
  {
    if lo > hi then 0 else RangeArea(geo.tileRange(box, lo)) + TilesAtZooms(box, lo + 1, hi, geo)
  }

  /** Reference definition: the sum over records of the tiles over each record's zoom band. */
  function EstimatedTiles(records: seq<GeometryRecord>, geo: GeoLibrary): int
    requires forall i :: 0 <= i < |records| ==> records[i].sanitizedBox.Some?
    decreases |records|
  {
    if records == [] then 0
    else TilesAtZooms(records[0].sanitizedBox.value, records[0].minZoomLevel, records[0].zoomLevel, geo) + EstimatedTiles(records[1..], geo)
  }

  lemma {:induction false} BatchesAreaAppend(a: seq<TileRange>, b: seq<TileRange>)
    ensures BatchesArea(a + b) == BatchesArea(a) + BatchesArea(b)
    decreases |b|
  {
    if b == [] {
      assert a + b == a;
    } else {
      assert (a + b)[..|a + b| - 1] == a + b[..|b| - 1];
      assert (a + b)[|a + b| - 1] == b[|b| - 1];
      BatchesAreaAppend(a, b[..|b| - 1]);
    }
  }

  /** The batches of one zoom band sum to the reference count of that band. */
  lemma {:induction false} ZoomBatchesArea(box: BBox, lo: int, hi: int, geo: GeoLibrary)
    ensures BatchesArea(ZoomBatches(box, lo, hi, geo)) == TilesAtZooms(box, lo, hi, geo)
    decreases hi - lo + 1
  {
    if lo <= hi {
      ZoomBatchesArea(box, lo + 1, hi, geo);
      var rest := ZoomBatches(box, lo + 1, hi, geo);
      assert ZoomBatches(box, lo, hi, geo) == [geo.tileRange(box, lo)] + rest;
      BatchesAreaAppend([geo.tileRange(box, lo)], rest);
      assert BatchesArea([geo.tileRange(box, lo)]) == RangeArea(geo.tileRange(box, lo)) by {
        assert [geo.tileRange(box, lo)][..0] == [];
      }
    }
  }

  lemma {:induction false} EstimatedTilesAppend(a: seq<GeometryRecord>, b: seq<GeometryRecord>, geo: GeoLibrary)
    requires forall i :: 0 <= i < |a| ==> a[i].sanitizedBox.Some?
    requires forall i :: 0 <= i < |b| ==> b[i].sanitizedBox.Some?
    ensures forall i :: 0 <= i < |a + b| ==> (a + b)[i].sanitizedBox.Some?
    ensures EstimatedTiles(a + b, geo) == EstimatedTiles(a, geo) + EstimatedTiles(b, geo)
    decreases |a|
  {
    if a == [] {
      assert a + b == b;
    } else {
      assert (a + b)[1..] == a[1..] + b;
      EstimatedTilesAppend(a[1..], b, geo);
    }
  }

  /** The batches the loop collects add up to the reference estimate. */
  lemma {:induction false} AllBatchesArea(records: seq<GeometryRecord>, geo: GeoLibrary)
    requires forall i :: 0 <= i < |records| ==> records[i].sanitizedBox.Some?
    ensures BatchesArea(AllBatches(records, geo)) == EstimatedTiles(records, geo)
    decreases |records|
  {
    if records != [] {
      var init := records[..|records| - 1];
      var last := records[|records| - 1];
      AllBatchesArea(init, geo);
      var band := ZoomBatches(last.sanitizedBox.value, last.minZoomLevel, last.zoomLevel, geo);
      BatchesAreaAppend(AllBatches(init, geo), band);
      ZoomBatchesArea(last.sanitizedBox.value, last.minZoomLevel, last.zoomLevel, geo);
      EstimatedTilesAppend(init, [last], geo);
      assert init + [last] == records;
      assert EstimatedTiles([last], geo) == TilesAtZooms(last.sanitizedBox.value, last.minZoomLevel, last.zoomLevel, geo) by {
        assert [last][1..] == [];
      }
    }
  }

  /** A record whose minimum zoom lies above its zoom contributes no tiles. */
  lemma InvertedBandCountsNothing(rec: GeometryRecord, geo: GeoLibrary)
    requires rec.sanitizedBox.Some? && rec.minZoomLevel > rec.zoomLevel
    ensures EstimatedTiles([rec], geo) == 0
  {
    assert [rec][1..] == [];
  }

  /** Appending one record extends the collected batches by that record's zoom band. */
  lemma AllBatchesStep(records: seq<GeometryRecord>, i: int, geo: GeoLibrary)
    requires 0 <= i < |records|
    requires forall k :: 0 <= k < |records| ==> records[k].sanitizedBox.Some?
    ensures AllBatches(records[..i + 1], geo) ==
              AllBatches(records[..i], geo) + ZoomBatches(records[i].sanitizedBox.value, records[i].minZoomLevel, records[i].zoomLevel, geo)
  {
    assert records[..i + 1][..i] == records[..i];
  }

  /** The first loop of `calculateEstimateGpkgSize`: one tile range per zoom of each record's band. */
  method CollectBatches(records: seq<GeometryRecord>, geo: GeoLibrary) returns (batches: seq<TileRange>)
    requires forall i :: 0 <= i < |records| ==> records[i].sanitizedBox.Some?
    ensures batches == AllBatches(records, geo)
  {
    batches := [];
    var i := 0;
    while i < |records|
      invariant 0 <= i <= |records|
      invariant batches == AllBatches(records[..i], geo)
    {
      var rec := records[i];
      var box, lo, hi := rec.sanitizedBox.value, rec.minZoomLevel, rec.zoomLevel;
      ghost var before := batches;
      var zoom := lo;
      while zoom <= hi
        invariant lo <= hi ==> lo <= zoom <= hi + 1
        invariant lo > hi ==> zoom == lo
        invariant batches == before + ZoomBatches(box, lo, zoom - 1, geo)
        decreases hi - zoom
      {
        batches := batches + [geo.tileRange(box, zoom)];
        zoom := zoom + 1;
      }
      AllBatchesStep(records, i, geo);
      i := i + 1;
    }
    assert records[..i] == records;
  }

  /** The second loop of `calculateEstimateGpkgSize`: the summed area of the collected ranges. */
  method SumBatchesArea(batches: seq<TileRange>) returns (total: int)
    ensures total == BatchesArea(batches)
  {
    total := 0;
    var j := 0;
    while j < |batches|
      invariant 0 <= j <= |batches|
      invariant total == BatchesArea(batches[..j])
    {
      assert batches[..j + 1][..j] == batches[..j];
      total := total + RangeArea(batches[j]);
      j := j + 1;
    }
    assert batches[..j] == batches;
  }

  /** `calculateEstimateGpkgSize`: collect the tile ranges of every record's zoom band, then sum. */
  method CalculateEstimateGpkgSize(records: seq<GeometryRecord>, format: TileFormat, geo: GeoLibrary, cfg: Config) returns (size: real)
    requires forall i :: 0 <= i < |records| ==> records[i].sanitizedBox.Some?
    ensures size == (EstimatedTiles(records, geo) as real) * TileEstimatedSize(format, cfg)
    ensures records == [] ==> size == 0.0
  {
    var tileEstimatedSize := TileEstimatedSize(format, cfg);
    var batches := CollectBatches(records, geo);
    var totalTilesCount := SumBatchesArea(batches);
    AllBatchesArea(records, geo);
    assert totalTilesCount == EstimatedTiles(records, geo);
    size := (totalTilesCount as real) * tileEstimatedSize;
    if records == [] {
      assert totalTilesCount == 0;
    }
  }
}
