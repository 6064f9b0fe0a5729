/**
 * The export request flow (src/export/models/exportManager.ts): resolve the layer,
 * default the ROI, validate the requested features, look for a duplicate, and otherwise
 * name the package and create the export job.
 */
module Export {
  import opened Wrappers
  import opened Common
  import opened Utils
  import opened JobStore
  import opened JobManager
  import opened Validation

  /** What an export request is answered with: the callback data of a finished export, or a job. */
  datatype ExportResponse = CachedExport(callbackParams: Option<CallbackParams>) | ExportJobResponse(response: JobResponse)

  // ---- Layer and ROI ----------------------------------------------------------------

  /** The catalog's answer to a layer search: its first record, or NotFound when there is none. */
  function FindLayer(catalogReply: seq<LayerMetadata>, dbId: string): (r: Result<LayerMetadata, Error>)
    ensures r.Err? <==> catalogReply == []
    ensures r.Err? ==> r.error == NotFound(dbId)
    ensures r.Ok? ==> r.value == catalogReply[0]
  {
    if catalogReply == [] then Err(NotFound(dbId)) else Ok(catalogReply[0])
  }

  /** The layer's footprint as a one-feature collection carrying the layer's resolution. */
  function DefaultRoi(layer: LayerMetadata): (fc: FeatureCollection)
    ensures |fc.features| == 1 && fc.features[0].geometry == layer.footprint
    ensures fc.features[0].properties == Some(FeatureProperties(Some(layer.maxResolutionDeg), None))
  {
    FeatureCollection([Feature(layer.footprint, Some(FeatureProperties(Some(layer.maxResolutionDeg), None)))])
  }

  function RequestRoi(request: CreateExportRequest, layer: LayerMetadata): (roi: FeatureCollection)
    ensures request.roi.Some? ==> roi == request.roi.value
    ensures request.roi.None? ==> roi == DefaultRoi(layer)
  {
    match request.roi
    case Some(roi) => roi
    case None => DefaultRoi(layer)
  }

  /** The default ROI always parses to exactly one record, at the layer's own resolution. */
  lemma DefaultRoiParsesToOneRecord(layer: LayerMetadata, geo: GeoLibrary)
    requires layer.maxResolutionDeg != 0.0
    ensures var records := ParsedRecords(DefaultRoi(layer).features, geo);
            |records| == 1 &&
            records[0].targetResolutionDeg == layer.maxResolutionDeg &&
            records[0].zoomLevel == geo.zoomOf(layer.maxResolutionDeg) &&
            records[0].minResolutionDeg == ZOOM_ZERO_RESOLUTION &&
            records[0].geometry == layer.footprint
  {
    var features := DefaultRoi(layer).features;
    assert features[..0] == [];
    assert HasTargetResolution(features[0]);
  }

  /** One callback target per URL, in order, each with the request's ROI; none when no URLs are given. */
  function CallbackTargets(urls: Option<seq<string>>, roi: FeatureCollection): (r: Option<seq<CallbackTarget>>)
    ensures r.None? <==> urls.None?
    ensures r.Some? ==> |r.value| == |urls.value| &&
                        forall i :: 0 <= i < |urls.value| ==> r.value[i] == CallbackTarget(urls.value[i], Some(roi))
  {
    match urls
    case None => None
    case Some(us) => Some(seq(|us|, i requires 0 <= i < |us| => CallbackTarget(us[i], Some(roi))))
  }

  // ---- Names -------------------------------------------------------------------

  /** Every occurrence of `target` replaced by `replacement`. */
  function ReplaceAll(s: string, target: char, replacement: char): (r: string)
    ensures |r| == |s|
    ensures forall i :: 0 <= i < |s| ==> r[i] == if s[i] == target then replacement else s[i]
  {
    if s == [] then []
    else [if s[0] == target then replacement else s[0]] + ReplaceAll(s[1..], target, replacement)
  }

  function Digit(d: nat): (c: char)
    requires d < 10
  {
    ('0' as int + d) as char
  }

  function DigitValue(c: char): nat {
    if '0' <= c <= '9' then (c as int - '0' as int) else 0
  }

  /** The decimal digits of `n`, most significant first. */
  function NatToString(n: nat): (s: string)
    ensures |s| >= 1
    ensures forall i :: 0 <= i < |s| ==> '0' <= s[i] <= '9'
  {
    if n < 10 then [Digit(n)] else NatToString(n / 10) + [Digit(n % 10)]
  }

  /** The number a string of decimal digits denotes. */
  function ParseDigits(s: string): nat {
    if s == [] then 0 else ParseDigits(s[..|s| - 1]) * 10 + DigitValue(s[|s| - 1])
  }

  /** Reading back the digits of `n` gives `n`. */
  lemma {:induction false} NatToStringRoundTrip(n: nat)
    ensures ParseDigits(NatToString(n)) == n
  {
    if n < 10 {
      assert [Digit(n)][..0] == [];
    } else {
      var s := NatToString(n / 10);
      NatToStringRoundTrip(n / 10);
      assert (s + [Digit(n % 10)])[..|s|] == s;
    }
  }

  /** A JavaScript integer in decimal. */
  function IntToString(z: int): (s: string)
    ensures |s| >= 1 && (z < 0 <==> s[0] == '-')
    ensures forall i :: 0 < i < |s| ==> '0' <= s[i] <= '9'
  {
    if z < 0 then "-" + NatToString(-z) else NatToString(z)
  }

  /** The largest zoom level among the records. */
  function MaxZoom(records: seq<GeometryRecord>): (m: int)
    requires records != []
    ensures exists i :: 0 <= i < |records| && records[i].zoomLevel == m
    ensures forall i :: 0 <= i < |records| ==> records[i].zoomLevel <= m
  {
    if |records| == 1 then records[0].zoomLevel
    else
      var init := records[..|records| - 1];
      var m := MaxZoom(init);
      assert forall i :: 0 <= i < |init| ==> init[i] == records[i];
      var last := records[|records| - 1].zoomLevel;
      if last > m then last else m
  }

  /** `Math.max` over the records' zoom levels, as text; the maximum of nothing is -Infinity. */
  function MaxZoomText(records: seq<GeometryRecord>): (t: string)
    ensures records == [] <==> t == "-Infinity"
  {
    if records == [] then "-Infinity"
    else
      var t := IntToString(MaxZoom(records));
      assert t != "-Infinity" by {
        if |t| == |"-Infinity"| {
          assert t[1] != 'I';
        }
      }
      t
  }

  /** The creation time in ISO form, with its separators turned into underscores. */
  function DateStamp(isoTime: string): (t: string)
    ensures |t| == |isoTime|
    ensures forall i :: 0 <= i < |t| ==> t[i] != '-' && t[i] != '.' && t[i] != ':'
    ensures forall i :: 0 <= i < |t| && isoTime[i] != '-' && isoTime[i] != '.' && isoTime[i] != ':' ==> t[i] == isoTime[i]
  {
    ReplaceAll(ReplaceAll(ReplaceAll(isoTime, '-', '_'), '.', '_'), ':', '_')
  }

  /** The name every file of the package starts with. */
  function ExportFileNamePrefix(productType: string, productId: string, productVersion: string, records: seq<GeometryRecord>, isoTime: string): string {
    productType + "_" + productId + "_" + ReplaceAll(productVersion, '.', '_') + "_" + MaxZoomText(records) + "_" + DateStamp(isoTime)
  }

  /** A part that follows `pre` in a prefix of `x` sits in `x` right after `pre`. */
  lemma PartAfter(x: string, pre: string, part: string)
    requires pre + part <= x
    ensures x[|pre|..|pre| + |part|] == part
  {
    assert x[|pre|..|pre| + |part|] == (pre + part)[|pre|..];
  }

  /** Five parts joined by underscores: each part sits at its offset, with an underscore after each but the last. */
  lemma JoinedParts(first: string, second: string, third: string, fourth: string, last: string)
    ensures var joined := first + "_" + second + "_" + third + "_" + fourth + "_" + last;
            var o2 := |first| + 1;
            var o3 := o2 + |second| + 1;
            var o4 := o3 + |third| + 1;
            var o5 := o4 + |fourth| + 1;
            |joined| == o5 + |last| &&
            joined[..o2] == first + "_" &&
            joined[o2..o3] == second + "_" &&
            joined[o3..o4] == third + "_" &&
            joined[o4..o5] == fourth + "_" &&
            joined[o5..] == last
  {
    var p1 := first + "_";
    var p2 := p1 + second + "_";
    var p3 := p2 + third + "_";
    var p4 := p3 + fourth + "_";
    var joined := p4 + last;
    assert p1 <= p2 <= p3 <= p4 <= joined;
    assert p2 == p1 + (second + "_") && p3 == p2 + (third + "_") && p4 == p3 + (fourth + "_");
    PartAfter(joined, p1, second + "_");
    PartAfter(joined, p2, third + "_");
    PartAfter(joined, p3, fourth + "_");
  }

  /**
   * The prefix is the product type, the product id, the version with its dots replaced, the
   * top zoom level and the date stamp, in that order, each followed by an underscore but the last.
   */
  lemma ExportFileNamePrefixParts(productType: string, productId: string, productVersion: string, records: seq<GeometryRecord>, isoTime: string)
    ensures var prefix := ExportFileNamePrefix(productType, productId, productVersion, records, isoTime);
            var version := ReplaceAll(productVersion, '.', '_');
            var zoom := MaxZoomText(records);
            var o2 := |productType| + 1;
            var o3 := o2 + |productId| + 1;
            var o4 := o3 + |productVersion| + 1;
            var o5 := o4 + |zoom| + 1;
            |prefix| == o5 + |isoTime| &&
            prefix[..o2] == productType + "_" &&
            prefix[o2..o3] == productId + "_" &&
            prefix[o3..o4] == version + "_" &&
            prefix[o4..o5] == zoom + "_" &&
            prefix[o5..] == DateStamp(isoTime)
  {
    var version, zoom, stamp := ReplaceAll(productVersion, '.', '_'), MaxZoomText(records), DateStamp(isoTime);
    JoinedParts(productType, productId, version, zoom, stamp);
  }

  /** The upper case of a string, letter by letter, for the ASCII letters. */
  function ToUpperAscii(s: string): (u: string)
    ensures |u| == |s|
    ensures forall i :: 0 <= i < |s| ==> u[i] == if 'a' <= s[i] <= 'z' then (s[i] as int - 32) as char else s[i]
  {
    if s == [] then []
    else [if 'a' <= s[0] <= 'z' then (s[0] as int - 32) as char else s[0]] + ToUpperAscii(s[1..])
  }

  /** `/` for an S3 provider (after upper-casing), the platform's separator otherwise. */
  function Separator(tilesProvider: string, platformSeparator: string): (sep: string)
    ensures tilesProvider == "S3" ==> sep == "/"
    ensures tilesProvider != "S3" ==> sep == platformSeparator
  {
    if tilesProvider == "S3" then "/" else platformSeparator
  }

  /** The configured provider is written S3 in either case exactly when it upper-cases to S3. */
  lemma ProviderIsS3(provider: string)
    ensures ToUpperAscii(provider) == "S3" <==> |provider| == 2 && (provider[0] == 's' || provider[0] == 'S') && provider[1] == '3'
  {
    var u := ToUpperAscii(provider);
    if u == "S3" {
      assert u[0] == 'S' && u[1] == '3';
    }
    if |provider| == 2 && (provider[0] == 's' || provider[0] == 'S') && provider[1] == '3' {
      assert u == [u[0], u[1]];
    }
  }

  /** The input of job creation for a request that has no duplicate. */
  function InitRequest(request: CreateExportRequest, layer: LayerMetadata, roi: FeatureCollection, callbacks: Option<seq<CallbackTarget>>,
                       records: seq<GeometryRecord>, isoTime: string, additionalIdentifiers: string, separator: string, cfg: Config): (w: ExportInitRequest)
    ensures w.crs == request.crs.GetOr(cfg.defaultCrs) && w.priority == request.priority.GetOr(cfg.defaultPriority)
    ensures w.roi == roi && w.callbacks == callbacks && w.dbId == request.dbId && w.description == request.description
    ensures w.cswProductId == layer.productId && w.version == layer.productVersion && w.productType == layer.productType
    ensures w.targetFormat == layer.tileOutputFormat && w.outputFormatStrategy == Mixed
    ensures w.relativeDirectoryPath == additionalIdentifiers
    ensures var prefix := ExportFileNamePrefix(layer.productType, layer.productId, layer.productVersion, records, isoTime);
            w.fileNamesTemplates == Links(prefix + ".gpkg", prefix + ".json") &&
            w.packageRelativePath == additionalIdentifiers + separator + prefix + ".gpkg"
  {
    var prefix := ExportFileNamePrefix(layer.productType, layer.productId, layer.productVersion, records, isoTime);
    var packageName := prefix + ".gpkg";
    ExportInitRequest(
      request.crs.GetOr(cfg.defaultCrs), roi, callbacks, Links(packageName, prefix + ".json"),
      additionalIdentifiers, additionalIdentifiers + separator + packageName,
      request.dbId, request.priority.GetOr(cfg.defaultPriority), layer.productVersion, layer.productId, layer.productType,
      layer.tileOutputFormat, Mixed, request.description)
  }

  // ---- The request flow -------------------------------------------------------------

  /** The environment of one request: the clock, the ROI identifier and the path separator. */
  datatype RequestContext = RequestContext(now: Timestamp, isoTime: string, geoIdentifier: FeatureCollection -> string, separator: string)

  /** `createExport` as a function of the store's state. */
  function CreateExportSpec(s: StoreState, request: CreateExportRequest, catalogReply: seq<LayerMetadata>, ctx: RequestContext, cfg: Config, geo: GeoLibrary): (e: Effect<Result<ExportResponse, Error>>)
  {
    match FindLayer(catalogReply, request.dbId)
    case Err(err) => Effect(Err(err), s)
    case Ok(layer) =>
      var roi := RequestRoi(request, layer);
      var v := ValidateAll(ParsedRecords(roi.features, geo), layer.footprint, geo.zoomOf(layer.maxResolutionDeg), layer.maxResolutionDeg, geo);
      if v.1.Fail? then Effect(Err(v.1.error), s)
      else
        var callbacks := CallbackTargets(request.callbackUrls, roi);
        var dup := DuplicationParams(layer.productId, layer.productVersion, request.dbId, roi, request.crs.GetOr(cfg.defaultCrs));
        var d := DuplicateSpec(s, dup, callbacks, ctx.now, cfg, geo);
        match d.value
        case Err(err) => Effect(Err(err), d.after)
        case Ok(CompletedDuplicate(callbackParams)) => Effect(Ok(CachedExport(callbackParams)), d.after)
        case Ok(ProcessingDuplicate(response)) => Effect(Ok(ExportJobResponse(response)), d.after)
        case Ok(NoDuplicate) =>
          var w := InitRequest(request, layer, roi, callbacks, v.0, ctx.isoTime, ctx.geoIdentifier(roi), ctx.separator, cfg);
          var c := CreateExportJobSpec(d.after, w, cfg);
          match c.value
          case Err(err) => Effect(Err(err), c.after)
          case Ok(response) => Effect(Ok(ExportJobResponse(response)), c.after)
  }

  /** An unknown layer ends the request before the Job Store is asked anything. */
  lemma UnknownLayerTouchesNothing(s: StoreState, request: CreateExportRequest, ctx: RequestContext, cfg: Config, geo: GeoLibrary)
    ensures CreateExportSpec(s, request, [], ctx, cfg, geo) == Effect(Err(NotFound(request.dbId)), s)
  {
  }

  /** Feature validation comes first: a request that fails it makes no Job Store call. */
  lemma ValidationFailureTouchesNothing(s: StoreState, request: CreateExportRequest, catalogReply: seq<LayerMetadata>, ctx: RequestContext, cfg: Config, geo: GeoLibrary)
    requires catalogReply != []
    requires var layer := catalogReply[0];
             ValidateAll(ParsedRecords(RequestRoi(request, layer).features, geo), layer.footprint, geo.zoomOf(layer.maxResolutionDeg), layer.maxResolutionDeg, geo).1.Fail?
    ensures var e := CreateExportSpec(s, request, catalogReply, ctx, cfg, geo);
            e.value.Err? && e.after == s
  {
  }

  /**
   * A duplicate is returned as the duplicate check found it, and no job is created; a
   * request that passes validation and meets a duplicate is answered with it, and a job is
   * created only when the check found none.
   */
  lemma DuplicateIsReturnedAsIs(s: StoreState, request: CreateExportRequest, catalogReply: seq<LayerMetadata>, ctx: RequestContext, cfg: Config, geo: GeoLibrary)
    requires catalogReply != []
    ensures var layer := catalogReply[0];
            var roi := RequestRoi(request, layer);
            var dup := DuplicationParams(layer.productId, layer.productVersion, request.dbId, roi, request.crs.GetOr(cfg.defaultCrs));
            var d := DuplicateSpec(s, dup, CallbackTargets(request.callbackUrls, roi), ctx.now, cfg, geo);
            var e := CreateExportSpec(s, request, catalogReply, ctx, cfg, geo);
            (e.value.Ok? && e.value.value.CachedExport? ==> d.value == Ok(CompletedDuplicate(e.value.value.callbackParams))) &&
            (d.value.Ok? && d.value.value.CompletedDuplicate? && e.value.Ok? ==> e.value == Ok(CachedExport(d.value.value.callbackParams))) &&
            (d.value.Ok? && d.value.value.ProcessingDuplicate? && e.value.Ok? ==> e.value == Ok(ExportJobResponse(d.value.value.response))) &&
            var valid := ValidateAll(ParsedRecords(roi.features, geo), layer.footprint, geo.zoomOf(layer.maxResolutionDeg), layer.maxResolutionDeg, geo).1.Pass?;
            (valid && d.value.Ok? && d.value.value.CompletedDuplicate? ==> e == Effect(Ok(CachedExport(d.value.value.callbackParams)), d.after)) &&
            (valid && d.value.Ok? && d.value.value.ProcessingDuplicate? ==> e == Effect(Ok(ExportJobResponse(d.value.value.response)), d.after)) &&
            (valid && d.value.Err? ==> e == Effect(Err(d.value.error), d.after)) &&
            var created := e.value.Ok? && e.value.value.ExportJobResponse? && !(d.value.Ok? && d.value.value.ProcessingDuplicate?);
            (created ==> valid && d.value == Ok(NoDuplicate)) &&
            (created ==> |e.after.createLog| == |s.createLog| + 1 && e.after.createLog[..|s.createLog|] == s.createLog) &&
            (!created ==> e.after.createLog == s.createLog)
  {
    DuplicateCheckCreatesNothing(s, DuplicationParams(catalogReply[0].productId, catalogReply[0].productVersion, request.dbId,
                                                      RequestRoi(request, catalogReply[0]), request.crs.GetOr(cfg.defaultCrs)),
                                 CallbackTargets(request.callbackUrls, RequestRoi(request, catalogReply[0])), ctx.now, cfg, geo);
  }

  /**
   * A valid request with no duplicate creates exactly one job, named after the product, with
   * the defaulted CRS and priority, and answers with the store's new job, reported pending.
   */
  lemma NovelRequestCreatesOneJob(s: StoreState, request: CreateExportRequest, catalogReply: seq<LayerMetadata>, ctx: RequestContext, cfg: Config, geo: GeoLibrary)
    requires catalogReply != []
    requires var layer := catalogReply[0];
             var roi := RequestRoi(request, layer);
             var dup := DuplicationParams(layer.productId, layer.productVersion, request.dbId, roi, request.crs.GetOr(cfg.defaultCrs));
             ValidateAll(ParsedRecords(roi.features, geo), layer.footprint, geo.zoomOf(layer.maxResolutionDeg), layer.maxResolutionDeg, geo).1.Pass? &&
             DuplicateSpec(s, dup, CallbackTargets(request.callbackUrls, roi), ctx.now, cfg, geo).value == Ok(NoDuplicate)
    requires request.crs.GetOr(cfg.defaultCrs) == SUPPORTED_CRS
    ensures var layer := catalogReply[0];
            var roi := RequestRoi(request, layer);
            var dup := DuplicationParams(layer.productId, layer.productVersion, request.dbId, roi, request.crs.GetOr(cfg.defaultCrs));
            var d := DuplicateSpec(s, dup, CallbackTargets(request.callbackUrls, roi), ctx.now, cfg, geo);
            var e := CreateExportSpec(s, request, catalogReply, ctx, cfg, geo);
            e.value == Ok(ExportJobResponse(JobResponse(s.createReply.id, s.createReply.taskIds, Pending, None))) &&
            |e.after.createLog| == |s.createLog| + 1 &&
            e.after.createLog[..|s.createLog|] == s.createLog &&
            var body := e.after.createLog[|s.createLog|];
            body.resourceId == layer.productId && body.productName == layer.productId &&
            body.internalId == request.dbId && body.version == layer.productVersion &&
            body.priority == request.priority.GetOr(cfg.defaultPriority) &&
            body.parameters.exportInputParams.crs == request.crs.GetOr(cfg.defaultCrs) &&
            body.parameters.exportInputParams.roi == roi &&
            body.parameters.exportInputParams.callbacks == CallbackTargets(request.callbackUrls, roi) &&
            body.additionalIdentifiers == ctx.geoIdentifier(roi) &&
            var records := ValidateAll(ParsedRecords(roi.features, geo), layer.footprint, geo.zoomOf(layer.maxResolutionDeg), layer.maxResolutionDeg, geo).0;
            var prefix := ExportFileNamePrefix(layer.productType, layer.productId, layer.productVersion, records, ctx.isoTime);
            body.parameters.additionalParams.fileNamesTemplates == Links(prefix + ".gpkg", prefix + ".json") &&
            body.parameters.additionalParams.packageRelativePath == ctx.geoIdentifier(roi) + ctx.separator + prefix + ".gpkg"
  {
    var layer := catalogReply[0];
    var roi := RequestRoi(request, layer);
    var dup := DuplicationParams(layer.productId, layer.productVersion, request.dbId, roi, request.crs.GetOr(cfg.defaultCrs));
    var d := DuplicateSpec(s, dup, CallbackTargets(request.callbackUrls, roi), ctx.now, cfg, geo);
    DuplicateCheckCreatesNothing(s, dup, CallbackTargets(request.callbackUrls, roi), ctx.now, cfg, geo);
    assert d.after.createLog == s.createLog && d.after.createReply == s.createReply;
  }

  // ---- The manager --------------------------------------------------------------------

  class ExportManager {
    const validationManager: ValidationManager
    const jobManager: JobManagerWrapper
    /** The configured tiles provider, upper-cased once. */
    const tilesProvider: string
    const platformSeparator: string

    constructor (validationManager: ValidationManager, jobManager: JobManagerWrapper, platformSeparator: string)
      requires validationManager.jobs == jobManager
      ensures this.validationManager == validationManager && this.jobManager == jobManager
      ensures this.platformSeparator == platformSeparator
      ensures tilesProvider == ToUpperAscii(jobManager.cfg.tilesProvider)
    {
      this.validationManager := validationManager;
      this.jobManager := jobManager;
      this.platformSeparator := platformSeparator;
      this.tilesProvider := ToUpperAscii(jobManager.cfg.tilesProvider);
    }

    function GetSeparator(): (sep: string)
    {
      Separator(tilesProvider, platformSeparator)
    }

    method CreateExport(request: CreateExportRequest, catalogReply: seq<LayerMetadata>, now: Timestamp, isoTime: string, geoIdentifier: FeatureCollection -> string)
      returns (r: Result<ExportResponse, Error>)
      requires validationManager.jobs == jobManager
      modifies jobManager.store
      ensures Effect(r, jobManager.store.State()) ==
                CreateExportSpec(old(jobManager.store.State()), request, catalogReply, RequestContext(now, isoTime, geoIdentifier, GetSeparator()),
                                 jobManager.cfg, jobManager.geo)
    {
      var cfg := jobManager.cfg;
      var geo := jobManager.geo;
      var layerMetadata := FindLayer(catalogReply, request.dbId);
      if layerMetadata.Err? {
        return Err(layerMetadata.error);
      }
      var layer := layerMetadata.value;
      var roi: FeatureCollection;
      if request.roi.None? {
        roi := DefaultRoi(layer);
      } else {
        roi := request.roi.value;
      }
      var srcRes := layer.maxResolutionDeg;
      var maxZoom := geo.zoomOf(srcRes);
      var parsed := ParseFeatureCollection(roi, geo);
      var featuresRecords := new GeometryRecord[|parsed|](i requires 0 <= i < |parsed| => parsed[i]);
      assert featuresRecords[..] == parsed;
      var validated := validationManager.ValidateFeaturesCollection(featuresRecords, layer.footprint, maxZoom, srcRes);
      if validated.Fail? {
        return Err(validated.error);
      }
      var callbacks := CallbackTargets(request.callbackUrls, roi);
      var duplicationExist := validationManager.CheckForExportDuplicate(layer.productId, layer.productVersion, request.dbId, roi,
                                                                        request.crs.GetOr(cfg.defaultCrs), callbacks, now);
      if duplicationExist.Err? {
        return Err(duplicationExist.error);
      }
      match duplicationExist.value {
        case CompletedDuplicate(callbackParams) =>
          return Ok(CachedExport(callbackParams));
        case ProcessingDuplicate(response) =>
          return Ok(ExportJobResponse(response));
        case NoDuplicate =>
      }
      var prefixPackageName := ExportFileNamePrefix(layer.productType, layer.productId, layer.productVersion, featuresRecords[..], isoTime);
      var packageName := prefixPackageName + ".gpkg";
      var metadataFileName := prefixPackageName + ".json";
      var additionalIdentifiers := geoIdentifier(roi);
      var separator := GetSeparator();
      var workerInput := ExportInitRequest(
        request.crs.GetOr(cfg.defaultCrs), roi, callbacks, Links(packageName, metadataFileName),
        additionalIdentifiers, additionalIdentifiers + separator + packageName,
        request.dbId, request.priority.GetOr(cfg.defaultPriority), layer.productVersion, layer.productId, layer.productType,
        layer.tileOutputFormat, Mixed, request.description);
      var jobCreated := jobManager.CreateExportJob(workerInput);
      if jobCreated.Err? {
        return Err(jobCreated.error);
      }
      r := Ok(ExportJobResponse(jobCreated.value));
    }
  }
}
