/**
 * QgsImageWarper: the georeferencer's driver around GDAL's warper. GDAL itself (opening
 * and creating files, the suggested output, the warp kernels) is not part of this model;
 * what GDAL reports back to the warper is passed in as data.
 */
module ImageWarper {
  import opened Wrappers
  import opened GeoTransform
  import opened ResolutionOverride
  import opened TransformChainModel

  /** QgsImageWarper::ResamplingMethod. */
  datatype ResamplingMethod = NearestNeighbour | Bilinear | Cubic | CubicSpline | Lanczos

  /** GDAL's GDALResampleAlg, with two of the algorithms the georeferencer never asks for. */
  datatype GdalResampleAlg =
    | GraNearestNeighbour | GraBilinear | GraCubic | GraCubicSpline | GraLanczos
    | GraAverage | GraMode

  /** The GDAL algorithm a georeferencer resampling method stands for, if any. */
  function FromGdalResampleAlg(alg: GdalResampleAlg): Option<ResamplingMethod>
  {
    match alg
    case GraNearestNeighbour => Some(NearestNeighbour)
    case GraBilinear => Some(Bilinear)
    case GraCubic => Some(Cubic)
    case GraCubicSpline => Some(CubicSpline)
    case GraLanczos => Some(Lanczos)
    case GraAverage => None
    case GraMode => None
  }

  /** toGDALResampleAlg: each method goes to the GDAL algorithm of the same name. */
  function ToGdalResampleAlg(resampling: ResamplingMethod): (alg: GdalResampleAlg)
    ensures FromGdalResampleAlg(alg) == Some(resampling)
  {
    match resampling
    case NearestNeighbour => GraNearestNeighbour
    case Bilinear => GraBilinear
    case Cubic => GraCubic
    case CubicSpline => GraCubicSpline
    case Lanczos => GraLanczos
  }

  /** Distinct resampling methods reach GDAL as distinct algorithms, and every GDAL
      algorithm with a georeferencer name is reached by that name. */
  lemma {:induction false} ResamplingMapIsFaithful(m1: ResamplingMethod, m2: ResamplingMethod, alg: GdalResampleAlg)
    ensures ToGdalResampleAlg(m1) == ToGdalResampleAlg(m2) ==> m1 == m2
    ensures FromGdalResampleAlg(alg).Some? ==> ToGdalResampleAlg(FromGdalResampleAlg(alg).value) == alg
  {
    if ToGdalResampleAlg(m1) == ToGdalResampleAlg(m2) {
      assert Some(m1) == FromGdalResampleAlg(ToGdalResampleAlg(m1)) == Some(m2);
    }
  }

  /** The band list openSrcDSAndGetWarpOpt gives GDAL: bands are numbered from 1. */
  function BandMap(count: nat): (bands: seq<int>)
    ensures |bands| == count
  {
    seq(count, i => i + 1)
  }

  /** Band i of the source is warped into band i of the destination, for every band there is. */
  lemma {:induction false} BandMapCoversAllBands(count: nat)
    ensures forall b :: b in BandMap(count) <==> 1 <= b <= count
    ensures forall i, j :: 0 <= i < j < count ==> BandMap(count)[i] < BandMap(count)[j]
  {
    forall b | 1 <= b <= count
      ensures b in BandMap(count)
    {
      assert BandMap(count)[b - 1] == b;
    }
  }

  /** The parts of GDALWarpOptions that openSrcDSAndGetWarpOpt fills in. */
  class WarpOptions {
    const bandCount: nat
    const srcBands: array<int>
    const dstBands: array<int>
    const resampleAlg: GdalResampleAlg

    constructor (bandCount: nat, srcBands: array<int>, dstBands: array<int>, resampleAlg: GdalResampleAlg)
      ensures this.bandCount == bandCount && this.srcBands == srcBands && this.dstBands == dstBands
      ensures this.resampleAlg == resampleAlg
    {
      this.bandCount := bandCount;
      this.srcBands := srcBands;
      this.dstBands := dstBands;
      this.resampleAlg := resampleAlg;
    }
  }

  /**
   * openSrcDSAndGetWarpOpt. `sourceRasterCount` is None when GDAL cannot open the input and
   * otherwise the number of raster bands GDAL reports for it.
   */
  method OpenSrcDSAndGetWarpOpt(sourceRasterCount: Option<nat>, resampling: ResamplingMethod)
    returns (options: WarpOptions?)
    ensures options == null <==> sourceRasterCount.None?
    ensures options != null ==>
              fresh(options) && fresh(options.srcBands) && fresh(options.dstBands) &&
              options.bandCount == sourceRasterCount.value &&
              options.srcBands[..] == BandMap(options.bandCount) &&
              options.dstBands[..] == BandMap(options.bandCount) &&
              options.resampleAlg == ToGdalResampleAlg(resampling)
  {
    if sourceRasterCount.None? {
      return null;
    }
    var count := sourceRasterCount.value;
    var srcBands := new int[count];
    var dstBands := new int[count];
    for i := 0 to count
      invariant forall k :: 0 <= k < i ==> srcBands[k] == k + 1 && dstBands[k] == k + 1
    {
      srcBands[i] := i + 1;
      dstBands[i] := i + 1;
    }
    options := new WarpOptions(count, srcBands, dstBands, ToGdalResampleAlg(resampling));
  }

  /** What the warper reads from, or writes to, one raster band. */
  datatype Band = Band(colorInterpretation: int, colorTable: Option<int>, noData: Option<real>)

  /**
   * The no-data value a destination band gets: the source band's when it has one, otherwise
   * 0 when the user asked for zero to be transparent, otherwise none.
   */
  function DestinationNoData(source: Option<real>, useZeroAsTrans: bool): (noData: Option<real>)
    ensures source.Some? ==> noData == source
    ensures source.None? ==> (noData.Some? <==> useZeroAsTrans)
    ensures noData.Some? ==> noData == source || noData.value == 0.0
  {
    if source.Some? then source
    else if useZeroAsTrans then Some(0.0)
    else None
  }

  /** A destination band copies its source band's colour interpretation and colour table. */
  function DestinationBand(source: Band, useZeroAsTrans: bool): Band
  {
    Band(source.colorInterpretation, source.colorTable, DestinationNoData(source.noData, useZeroAsTrans))
  }

  /**
   * How the GDAL calls of createDestinationDataset turn out: the GTiff driver is found, the
   * file is created, the geotransform is accepted, the projection is exported and written.
   */
  datatype CreationResults = CreationResults(driverFound: bool, created: bool,
                                             geoTransformAccepted: bool, projectionWritten: bool)

  datatype Dataset = Dataset(pixels: int, lines: int, geoTransform: Coefficients, bands: seq<Band>)

  /** The destination dataset createDestinationDataset produces, or None when it returns false. */
  function DestinationFor(sourceBands: seq<Band>, pixels: int, lines: int, gt: Coefficients,
                          useZeroAsTrans: bool, crsValid: bool, results: CreationResults): (destination: Option<Dataset>)
  {
    if !results.driverFound || !results.created || !results.geoTransformAccepted then None
    else if crsValid && !results.projectionWritten then None
    else Some(Dataset(pixels, lines, gt,
                      seq(|sourceBands|, i requires 0 <= i < |sourceBands| =>
                                           DestinationBand(sourceBands[i], useZeroAsTrans))))
  }

  /** createDestinationDataset, band loop included. */
  method CreateDestinationDataset(sourceBands: seq<Band>, resX: int, resY: int, adfGeoTransform: array<real>,
                                  useZeroAsTrans: bool, crsValid: bool, results: CreationResults)
    returns (destination: Option<Dataset>)
    requires adfGeoTransform.Length == 6
    ensures destination == DestinationFor(sourceBands, resX, resY, adfGeoTransform[..],
                                          useZeroAsTrans, crsValid, results)
  {
    if !results.driverFound || !results.created {
      return None;
    }
    if !results.geoTransformAccepted {
      return None;
    }
    if crsValid && !results.projectionWritten {
      return None;
    }
    var bands: seq<Band> := [];
    for i := 0 to |sourceBands|
      invariant |bands| == i
      invariant forall k :: 0 <= k < i ==> bands[k] == DestinationBand(sourceBands[k], useZeroAsTrans)
    {
      var source := sourceBands[i];
      var noData: Option<real> := None;
      if source.noData.Some? {
        noData := source.noData;
      } else if useZeroAsTrans {
        noData := Some(0.0);
      }
      bands := bands + [Band(source.colorInterpretation, source.colorTable, noData)];
    }
    assert bands == seq(|sourceBands|, i requires 0 <= i < |sourceBands| =>
                                         DestinationBand(sourceBands[i], useZeroAsTrans));
    destination := Some(Dataset(resX, resY, adfGeoTransform[..], bands));
  }

  /**
   * Without "use 0 as transparent" the destination has exactly the source's no-data values;
   * with it, only bands without one gain 0.
   */
  lemma {:induction false} NoDataCarriedOver(sourceBands: seq<Band>, pixels: int, lines: int, gt: Coefficients,
                                             useZeroAsTrans: bool, crsValid: bool, results: CreationResults)
    requires DestinationFor(sourceBands, pixels, lines, gt, useZeroAsTrans, crsValid, results).Some?
    ensures var d := DestinationFor(sourceBands, pixels, lines, gt, useZeroAsTrans, crsValid, results).value;
            |d.bands| == |sourceBands| &&
            forall i :: 0 <= i < |sourceBands| ==>
              (d.bands[i].noData != sourceBands[i].noData <==>
                 useZeroAsTrans && sourceBands[i].noData.None?) &&
              (d.bands[i].noData != sourceBands[i].noData ==> d.bands[i].noData == Some(0.0))
  {
    var d := DestinationFor(sourceBands, pixels, lines, gt, useZeroAsTrans, crsValid, results).value;
    forall i | 0 <= i < |sourceBands|
      ensures (d.bands[i].noData != sourceBands[i].noData <==> useZeroAsTrans && sourceBands[i].noData.None?) &&
              (d.bands[i].noData != sourceBands[i].noData ==> d.bands[i].noData == Some(0.0))
    {
      assert d.bands[i] == DestinationBand(sourceBands[i], useZeroAsTrans);
    }
  }

  /**
   * The value updateWarpProgress shows for a completed fraction: the percentage truncated
   * toward zero, capped at 100.
   */
  function ProgressValue(dfComplete: real): (shown: int)
    requires 0.0 <= dfComplete
    ensures 0 <= shown <= 100
    ensures shown == 100 <==> dfComplete >= 1.0
    ensures shown < 100 ==> shown as real <= dfComplete * 100.0 < shown as real + 1.0
  {
    var percent := Trunc(dfComplete * 100.0);
    if percent < 100 then percent else 100
  }

  /** The progress bar never moves backwards while GDAL's completed fraction grows. */
  lemma {:induction false} ProgressMonotone(a: real, b: real)
    requires 0.0 <= a <= b
    ensures ProgressValue(a) <= ProgressValue(b)
  {
    if ProgressValue(b) < 100 {
      assert ProgressValue(a) as real <= a * 100.0 <= b * 100.0 < ProgressValue(b) as real + 1.0;
    }
  }

  /** The static state of QgsImageWarper: sWarpCanceled, which outlives each warpFile call. */
  class WarpStatics {
    var warpCanceled: bool

    constructor ()
      ensures !warpCanceled
    {
      warpCanceled := false;
    }
  }

  /**
   * updateWarpProgress: shows the progress, then records whether the user cancelled and
   * tells GDAL whether to go on. `userCanceled` is the progress dialog's wasCanceled().
   */
  method UpdateWarpProgress(statics: WarpStatics, dfComplete: real, userCanceled: bool)
    returns (goOn: bool, shown: int)
    requires 0.0 <= dfComplete
    modifies statics
    ensures shown == ProgressValue(dfComplete)
    ensures goOn == !userCanceled && statics.warpCanceled == userCanceled
  {
    var percent := Trunc(dfComplete * 100.0);
    shown := if percent < 100 then percent else 100;
    if userCanceled {
      statics.warpCanceled := true;
      return false, shown;
    }
    statics.warpCanceled := false;
    return true, shown;
  }

  /** One call GDAL makes to the progress callback: the fraction done and the dialog's cancel state. */
  datatype ProgressReport = ProgressReport(complete: real, userCanceled: bool)

  predicate ReportsWellFormed(reports: seq<ProgressReport>)
  {
    forall i :: 0 <= i < |reports| ==> reports[i].complete >= 0.0
  }

  /** The position of the first report on which the user had cancelled; |reports| if none. */
  function CancelIndex(reports: seq<ProgressReport>): (k: nat)
    ensures k <= |reports|
    ensures forall i :: 0 <= i < k ==> !reports[i].userCanceled
    ensures k < |reports| ==> reports[k].userCanceled
    ensures k < |reports| <==> exists i :: 0 <= i < |reports| && reports[i].userCanceled
  {
    if reports == [] then 0
    else if reports[0].userCanceled then 0
    else 1 + CancelIndex(reports[1..])
  }

  predicate AnyCanceled(reports: seq<ProgressReport>)
  {
    CancelIndex(reports) < |reports|
  }

  /** The reports GDAL gets to deliver: it stops at the first callback that says no. */
  function Delivered(reports: seq<ProgressReport>): (delivered: seq<ProgressReport>)
    ensures delivered <= reports
  {
    if AnyCanceled(reports) then reports[..CancelIndex(reports) + 1] else reports
  }

  /** The values shown on the progress dialog during a warp. */
  function ShownProgress(reports: seq<ProgressReport>): (shown: seq<int>)
    requires ReportsWellFormed(reports)
    ensures |shown| == |Delivered(reports)|
  {
    var delivered := Delivered(reports);
    seq(|delivered|, i requires 0 <= i < |delivered| => ProgressValue(delivered[i].complete))
  }

  /**
   * What GDAL's ChunkAndWarpImage amounts to for the warper: the progress callbacks it
   * makes, stopping at the first that says no (CE_Failure); otherwise its result is
   * `engineOk`, which stands for everything else GDAL does.
   */
  method ChunkAndWarpImage(statics: WarpStatics, reports: seq<ProgressReport>, engineOk: bool)
    returns (ceNone: bool, shown: seq<int>)
    requires ReportsWellFormed(reports)
    modifies statics
    ensures ceNone == (engineOk && !AnyCanceled(reports))
    ensures shown == ShownProgress(reports)
    ensures statics.warpCanceled == if reports == [] then old(statics.warpCanceled) else AnyCanceled(reports)
  {
    var i := 0;
    var goOn := true;
    shown := [];
    while i < |reports| && goOn
      invariant 0 <= i <= |reports|
      invariant goOn ==> i <= CancelIndex(reports)
      invariant !goOn ==> i == CancelIndex(reports) + 1
      invariant shown == seq(i, k requires 0 <= k < i => ProgressValue(reports[k].complete))
      invariant i == 0 ==> statics.warpCanceled == old(statics.warpCanceled)
      invariant i > 0 ==> statics.warpCanceled == reports[i - 1].userCanceled
    {
      var value;
      goOn, value := UpdateWarpProgress(statics, reports[i].complete, reports[i].userCanceled);
      shown := shown + [value];
      i := i + 1;
    }
    assert Delivered(reports) == reports[..i];
    ceNone := goOn && engineOk;
  }

  /** warpFile's return value once the warp has run: -1 cancelled, 1 success, 0 failure. */
  function WarpFileCode(warpCanceled: bool, ceNone: bool): (code: int)
    ensures code == -1 <==> warpCanceled
    ensures code == 1 <==> !warpCanceled && ceNone
    ensures code == 0 <==> !warpCanceled && !ceNone
  {
    if warpCanceled then -1 else if ceNone then 1 else 0
  }

  /** Everything warpFile learns from outside: the georeferencing transform, GDAL, the user. */
  datatype WarpInputs = WarpInputs(
    parametersInitialized: bool,        // georefTransform.parametersInitialized()
    sourceBands: Option<seq<Band>>,     // the opened input's bands; None when GDALOpen fails
    suggestion: Option<OutputGeometry>, // GDALSuggestedWarpOutput; None when it fails
    resampling: ResamplingMethod,
    useZeroAsTrans: bool,
    crsValid: bool,
    creation: CreationResults,
    destResX: real,
    destResY: real,
    georef: GeorefTransformer,
    invert: Coefficients -> Option<Coefficients>, // GDALInvGeoTransform
    reports: seq<ProgressReport>,
    engineOk: bool)

  predicate WarpInputsValid(w: WarpInputs)
  {
    (w.suggestion.Some? ==> ResolutionDefined(w.suggestion.value.geoTransform, w.destResX, w.destResY)) &&
    ReportsWellFormed(w.reports)
  }

  /**
   * warpFile as a function of its inputs and of sWarpCanceled on entry: the value returned
   * and sWarpCanceled on exit. Every early `return false` is 0 and leaves the flag alone.
   */
  function WarpFileOutcome(w: WarpInputs, canceledBefore: bool): (outcome: (bool, int))
    requires WarpInputsValid(w)
  {
    if !w.parametersInitialized || w.sourceBands.None? || w.suggestion.None? then (canceledBefore, 0)
    else match NegotiateOutput(w.suggestion.value, w.destResX, w.destResY)
      case None => (canceledBefore, 0)
      case Some(out) =>
        if DestinationFor(w.sourceBands.value, out.pixels, out.lines, out.geoTransform,
                          w.useZeroAsTrans, w.crsValid, w.creation).None? then (canceledBefore, 0)
        else
          var canceledAfter := if w.reports == [] then canceledBefore else AnyCanceled(w.reports);
          (canceledAfter, WarpFileCode(canceledAfter, w.engineOk && !AnyCanceled(w.reports)))
  }

  /** warpFile, step by step over the model's stand-ins for GDAL. */
  method WarpFile(statics: WarpStatics, w: WarpInputs) returns (code: int)
    requires WarpInputsValid(w)
    modifies statics
    ensures (statics.warpCanceled, code) == WarpFileOutcome(w, old(statics.warpCanceled))
  {
    if !w.parametersInitialized {
      return 0;
    }
    var rasterCount: Option<nat> := if w.sourceBands.Some? then Some(|w.sourceBands.value|) else None;
    var options := OpenSrcDSAndGetWarpOpt(rasterCount, w.resampling);
    if options == null {
      return 0;
    }
    if w.suggestion.None? {
      return 0;
    }
    var suggested := w.suggestion.value;
    var adfGeoTransform := new real[6](i requires 0 <= i < 6 => suggested.geoTransform[i]);
    assert adfGeoTransform[..] == suggested.geoTransform;
    var ok, destPixels, destLines := OverrideResolution(adfGeoTransform, suggested.pixels, suggested.lines,
                                                        w.destResX, w.destResY);
    if !ok {
      return 0;
    }
    var destination := CreateDestinationDataset(w.sourceBands.value, destPixels, destLines, adfGeoTransform,
                                                w.useZeroAsTrans, w.crsValid, w.creation);
    if destination.None? {
      return 0;
    }
    var chain := AddGeoToPixelTransform(w.georef, adfGeoTransform, w.invert);
    var ceNone, shown := ChunkAndWarpImage(statics, w.reports, w.engineOk);
    code := WarpFileCode(statics.warpCanceled, ceNone);
  }

  /** A cancel during the warp makes warpFile return -1, whatever GDAL reports. */
  lemma {:induction false} CancelGivesMinusOne(w: WarpInputs, canceledBefore: bool)
    requires WarpInputsValid(w) && AnyCanceled(w.reports)
    requires w.parametersInitialized && w.sourceBands.Some? && w.suggestion.Some?
    requires NegotiateOutput(w.suggestion.value, w.destResX, w.destResY).Some?
    requires var out := NegotiateOutput(w.suggestion.value, w.destResX, w.destResY).value;
             DestinationFor(w.sourceBands.value, out.pixels, out.lines, out.geoTransform,
                            w.useZeroAsTrans, w.crsValid, w.creation).Some?
    ensures WarpFileOutcome(w, canceledBefore) == (true, -1)
  {
    assert w.reports != [];
  }

  /**
   * sWarpCanceled is static: when GDAL makes no progress call, a cancel left over from an
   * earlier warpFile makes this one return -1 too, and a warp that completes without a
   * cancel clears it.
   */
  lemma CancelFlagPersists(w: WarpInputs, canceledBefore: bool)
    requires WarpInputsValid(w)
    requires w.parametersInitialized && w.sourceBands.Some? && w.suggestion.Some?
    requires NegotiateOutput(w.suggestion.value, w.destResX, w.destResY).Some?
    requires var out := NegotiateOutput(w.suggestion.value, w.destResX, w.destResY).value;
             DestinationFor(w.sourceBands.value, out.pixels, out.lines, out.geoTransform,
                            w.useZeroAsTrans, w.crsValid, w.creation).Some?
    ensures w.reports == [] ==> WarpFileOutcome(w, canceledBefore).1 == (if canceledBefore then -1 else if w.engineOk then 1 else 0)
    ensures w.reports != [] && !AnyCanceled(w.reports) ==>
              WarpFileOutcome(w, canceledBefore) == (false, if w.engineOk then 1 else 0)
  {
  }

  /** A suggestion that is not north-up, with a resolution override, fails with 0 before any warp. */
  lemma {:induction false} NotNorthUpFails(w: WarpInputs, canceledBefore: bool)
    requires WarpInputsValid(w)
    requires w.parametersInitialized && w.sourceBands.Some? && w.suggestion.Some?
    requires OverrideRequested(w.destResX, w.destResY) && !IsNorthUp(w.suggestion.value.geoTransform)
    ensures WarpFileOutcome(w, canceledBefore) == (canceledBefore, 0)
  {
    NorthUpGuard(w.suggestion.value, w.destResX, w.destResY);
  }

  /** warpFile returns 1 only when the user never cancelled and GDAL succeeded. */
  lemma SuccessMeansNoCancel(w: WarpInputs, canceledBefore: bool)
    requires WarpInputsValid(w)
    requires WarpFileOutcome(w, canceledBefore).1 == 1
    ensures !AnyCanceled(w.reports) && w.engineOk && !WarpFileOutcome(w, canceledBefore).0
    ensures w.parametersInitialized && w.sourceBands.Some? && w.suggestion.Some?
    ensures NegotiateOutput(w.suggestion.value, w.destResX, w.destResY).Some?
    ensures var out := NegotiateOutput(w.suggestion.value, w.destResX, w.destResY).value;
            DestinationFor(w.sourceBands.value, out.pixels, out.lines, out.geoTransform,
                           w.useZeroAsTrans, w.crsValid, w.creation).Some?
  {
  }
}
