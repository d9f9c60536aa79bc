/**
 * The resolution/extent override inside QgsImageWarper::warpFile: the output geometry
 * suggested by GDAL is optionally re-gridded at a user-given resolution, keeping the
 * north-up convention (pixel width positive, pixel height negative).
 */
module ResolutionOverride {
  import opened Wrappers
  import opened GeoTransform

  /** Output raster geometry: a geotransform plus pixel and line counts. */
  datatype OutputGeometry = OutputGeometry(geoTransform: Coefficients, pixels: int, lines: int)

  function Abs(r: real): (magnitude: real)
  {
    if r < 0.0 then -r else r
  }

  /** C's `(int)` conversion of a double: truncation toward zero (overflow not modelled). */
  function Trunc(q: real): (n: int)
    ensures 0.0 <= q ==> 0 <= n && n as real <= q < n as real + 1.0
    ensures q < 0.0 ==> n <= 0 && n as real - 1.0 < q <= n as real
  {
    if q >= 0.0 then q.Floor else -((-q).Floor)
  }

  /**
   * The pixel or line count covering `extent` at resolution `res`: C's
   * `(int)((extent / res) + 0.5)`.
   */
  function CellCount(extent: real, res: real): (count: int)
    requires res != 0.0
  {
    Trunc(extent / res + 0.5)
  }

  /**
   * The count along one axis after re-gridding: the suggested axis runs from `origin` over
   * `count` cells of size `size`; its extent is divided by `res` and rounded.
   */
  function RegridCount(origin: real, size: real, count: int, res: real): (regridded: int)
    requires res != 0.0
  {
    var first := origin;
    var last := origin + Span(size, count);
    CellCount(last - first, res)
  }

  /** The signed length of `count` cells of size `size`. */
  function Span(size: real, count: int): (extent: real)
  {
    size * count as real
  }

  /** The re-gridded count depends only on the extent, not on the origin. */
  lemma RegridCountOfExtent(origin: real, size: real, count: int, res: real)
    requires res != 0.0
    ensures RegridCount(origin, size, count, res) == CellCount(Span(size, count), res)
  {
    assert (origin + Span(size, count)) - origin == Span(size, count);
  }

  /** A resolution of exactly 0.0 means "not given"; any other value asks for an override. */
  predicate OverrideRequested(destResX: real, destResY: real)
  {
    destResX != 0.0 || destResY != 0.0
  }

  /** The north-up test applied to GDAL's suggestion: origin X positive, pixel height negative. */
  predicate IsNorthUp(gt: Coefficients)
  {
    gt[0] > 0.0 && gt[5] < 0.0
  }

  /**
   * The one case where the override would divide by zero: an override is requested, the
   * suggestion is north-up, the X resolution is taken from the suggestion and that is 0.
   */
  predicate ResolutionDefined(gt: Coefficients, destResX: real, destResY: real)
  {
    OverrideRequested(destResX, destResY) && IsNorthUp(gt) && destResX == 0.0 ==> gt[1] != 0.0
  }

  /**
   * The resolutions actually used: a missing one is filled from the suggestion
   * (coefficient 1 for X, 5 for Y), then X is made non-negative and Y non-positive.
   */
  function EffectiveResolution(gt: Coefficients, destResX: real, destResY: real): (res: (real, real))
    ensures var wantX := if destResX == 0.0 then gt[1] else destResX;
            res.0 >= 0.0 && (res.0 == wantX || res.0 == -wantX)
    ensures var wantY := if destResY == 0.0 then gt[5] else destResY;
            res.1 <= 0.0 && (res.1 == wantY || res.1 == -wantY)
  {
    var resX := if destResX == 0.0 then gt[1] else destResX;
    var resY := if destResY == 0.0 then gt[5] else destResY;
    (if resX < 0.0 then -resX else resX, if resY > 0.0 then -resY else resY)
  }

  /**
   * The geometry handed to dataset creation, or None when the override is requested on a
   * suggestion that is not north-up (warpFile then fails).
   */
  function NegotiateOutput(suggested: OutputGeometry, destResX: real, destResY: real): (negotiated: Option<OutputGeometry>)
    requires ResolutionDefined(suggested.geoTransform, destResX, destResY)
  {
    var gt := suggested.geoTransform;
    if !OverrideRequested(destResX, destResY) then Some(suggested)
    else if !IsNorthUp(gt) then None
    else
      var res := EffectiveResolution(gt, destResX, destResY);
      Some(OutputGeometry(gt[1 := res.0][5 := res.1],
                          RegridCount(gt[0], gt[1], suggested.pixels, res.0),
                          RegridCount(gt[3], gt[5], suggested.lines, res.1)))
  }

  /**
   * The override block of warpFile, in place on the suggested geotransform array: on
   * success the array and counts are those of NegotiateOutput; on failure nothing is written.
   */
  method OverrideResolution(adfGeoTransform: array<real>, destPixels: int, destLines: int,
                            destResX: real, destResY: real)
    returns (ok: bool, pixels: int, lines: int)
    requires adfGeoTransform.Length == 6
    requires ResolutionDefined(adfGeoTransform[..], destResX, destResY)
    modifies adfGeoTransform
    ensures var r := NegotiateOutput(OutputGeometry(old(adfGeoTransform[..]), destPixels, destLines),
                                     destResX, destResY);
            ok == r.Some? &&
            (ok ==> adfGeoTransform[..] == r.value.geoTransform &&
                    pixels == r.value.pixels && lines == r.value.lines)
    ensures !ok ==> adfGeoTransform[..] == old(adfGeoTransform[..])
  {
    ghost var suggested: Coefficients := adfGeoTransform[..];
    pixels, lines := destPixels, destLines;
    var resX, resY := destResX, destResY;
    if resX != 0.0 || resY != 0.0 {
      if resX == 0.0 {
        resX := adfGeoTransform[1];
      }
      if resY == 0.0 {
        resY := adfGeoTransform[5];
      }
      if resX < 0.0 {
        resX := -resX;
      }
      if resY > 0.0 {
        resY := -resY;
      }
      if adfGeoTransform[0] <= 0.0 || adfGeoTransform[5] >= 0.0 {
        return false, pixels, lines;
      }
      assert (resX, resY) == EffectiveResolution(suggested, destResX, destResY);
      var minX := adfGeoTransform[0];
      var maxX := adfGeoTransform[0] + adfGeoTransform[1] * pixels as real;
      var maxY := adfGeoTransform[3];
      var minY := adfGeoTransform[3] + adfGeoTransform[5] * lines as real;
      assert maxX == suggested[0] + Span(suggested[1], destPixels);
      assert minY == suggested[3] + Span(suggested[5], destLines);
      pixels := CellCount(maxX - minX, resX);
      lines := CellCount(minY - maxY, resY);
      adfGeoTransform[0] := minX;
      adfGeoTransform[3] := maxY;
      adfGeoTransform[1] := resX;
      adfGeoTransform[5] := resY;
    }
    ok := true;
  }

  /** With both resolutions 0.0 the suggestion reaches dataset creation unchanged. */
  lemma OverrideIsOptional(suggested: OutputGeometry)
    ensures NegotiateOutput(suggested, 0.0, 0.0) == Some(suggested)
  {
  }

  /** A requested override fails exactly when the suggestion is not north-up. */
  lemma NorthUpGuard(suggested: OutputGeometry, destResX: real, destResY: real)
    requires ResolutionDefined(suggested.geoTransform, destResX, destResY)
    requires OverrideRequested(destResX, destResY)
    ensures NegotiateOutput(suggested, destResX, destResY).None? <==> !IsNorthUp(suggested.geoTransform)
  {
  }

  /**
   * What a successful override changes: the origin (coefficients 0 and 3) and the rotation
   * terms (2 and 4) are kept, 1 and 5 become the normalised resolutions, and the counts are
   * the suggested extent divided by the new resolution, rounded by `(int)(q + 0.5)`.
   */
  lemma OverrideChanges(suggested: OutputGeometry, destResX: real, destResY: real)
    requires ResolutionDefined(suggested.geoTransform, destResX, destResY)
    requires OverrideRequested(destResX, destResY) && IsNorthUp(suggested.geoTransform)
    ensures NegotiateOutput(suggested, destResX, destResY).Some?
    ensures var gt := suggested.geoTransform;
            var out := NegotiateOutput(suggested, destResX, destResY).value.geoTransform;
            out[0] == gt[0] && out[3] == gt[3] && out[2] == gt[2] && out[4] == gt[4]
    ensures var gt := suggested.geoTransform;
            var out := NegotiateOutput(suggested, destResX, destResY).value.geoTransform;
            out[1] == Abs(if destResX == 0.0 then gt[1] else destResX) &&
            out[5] == -Abs(if destResY == 0.0 then gt[5] else destResY)
    ensures var gt := suggested.geoTransform;
            var r := NegotiateOutput(suggested, destResX, destResY).value;
            r.pixels == CellCount(Span(gt[1], suggested.pixels), r.geoTransform[1]) &&
            r.lines == CellCount(Span(gt[5], suggested.lines), r.geoTransform[5])
  {
    var gt := suggested.geoTransform;
    var res := EffectiveResolution(gt, destResX, destResY);
    var r := NegotiateOutput(suggested, destResX, destResY).value;
    assert A: r.geoTransform[1] == res.0 && r.geoTransform[5] == res.1;
    assert B: r.pixels == RegridCount(gt[0], gt[1], suggested.pixels, res.0);
    assert C: r.lines == RegridCount(gt[3], gt[5], suggested.lines, res.1);
    RegridCountOfExtent(gt[0], gt[1], suggested.pixels, res.0);
    RegridCountOfExtent(gt[3], gt[5], suggested.lines, res.1);
  }

  /**
   * After a successful override the pixel width is positive and the pixel height negative,
   * and a resolution left at 0.0 is the suggested one (the suggestion being north-up).
   */
  lemma ResolutionFillAndSign(suggested: OutputGeometry, destResX: real, destResY: real)
    requires ResolutionDefined(suggested.geoTransform, destResX, destResY)
    requires NegotiateOutput(suggested, destResX, destResY).Some?
    requires OverrideRequested(destResX, destResY)
    ensures var gt := suggested.geoTransform;
            var out := NegotiateOutput(suggested, destResX, destResY).value.geoTransform;
            out[1] > 0.0 && out[5] < 0.0 &&
            (destResX == 0.0 ==> out[1] == Abs(gt[1])) &&
            (destResY == 0.0 ==> out[5] == gt[5])
  {
  }

  /**
   * Rounding of a non-negative quotient by `(int)(q + 0.5)` is round-half-up: the count is
   * the nearest integer, ties going up.
   */
  lemma CountRoundsHalfUp(q: real)
    requires q >= 0.0
    ensures 0 <= Trunc(q + 0.5)
    ensures q - 0.5 < Trunc(q + 0.5) as real <= q + 0.5
  {
  }

  /**
   * The new counts are the suggested extent measured in output pixels, rounded to the
   * nearest integer (for a non-negative suggested extent).
   */
  lemma OverrideKeepsExtent(suggested: OutputGeometry, destResX: real, destResY: real)
    requires ResolutionDefined(suggested.geoTransform, destResX, destResY)
    requires OverrideRequested(destResX, destResY) && IsNorthUp(suggested.geoTransform)
    requires Span(suggested.geoTransform[1], suggested.pixels) >= 0.0
    requires suggested.lines >= 0
    ensures var gt := suggested.geoTransform;
            var r := NegotiateOutput(suggested, destResX, destResY).value;
            var cellsX := Span(gt[1], suggested.pixels) / r.geoTransform[1];
            var cellsY := Span(gt[5], suggested.lines) / r.geoTransform[5];
            cellsX - 0.5 < r.pixels as real <= cellsX + 0.5 &&
            cellsY - 0.5 < r.lines as real <= cellsY + 0.5
  {
    var gt := suggested.geoTransform;
    OverrideChanges(suggested, destResX, destResY);
    var r := NegotiateOutput(suggested, destResX, destResY).value;
    var cellsX := Span(gt[1], suggested.pixels) / r.geoTransform[1];
    var cellsY := Span(gt[5], suggested.lines) / r.geoTransform[5];
    QuotientSign(Span(gt[1], suggested.pixels), r.geoTransform[1]);
    NorthUpSpan(gt[5], suggested.lines);
    QuotientSign(-Span(gt[5], suggested.lines), -r.geoTransform[5]);
    assert cellsY == -Span(gt[5], suggested.lines) / -r.geoTransform[5];
    CountRoundsHalfUp(cellsX);
    CountRoundsHalfUp(cellsY);
  }

  /** A non-negative extent over a positive resolution is a non-negative cell count. */
  lemma QuotientSign(extent: real, res: real)
    requires extent >= 0.0 && res > 0.0
    ensures extent / res >= 0.0
  {
  }

  /** With a negative pixel height, a non-negative line count spans downwards. */
  lemma NorthUpSpan(size: real, count: int)
    requires size < 0.0 && count >= 0
    ensures Span(size, count) <= 0.0
  {
  }

  /**
   * Re-running the override on its own output at the same requested resolution changes
   * nothing, as long as the counts it produced are non-negative.
   */
  lemma OverrideIdempotent(suggested: OutputGeometry, destResX: real, destResY: real)
    requires ResolutionDefined(suggested.geoTransform, destResX, destResY)
    requires NegotiateOutput(suggested, destResX, destResY).Some?
    requires NegotiateOutput(suggested, destResX, destResY).value.pixels >= 0
    requires NegotiateOutput(suggested, destResX, destResY).value.lines >= 0
    ensures var r := NegotiateOutput(suggested, destResX, destResY).value;
            ResolutionDefined(r.geoTransform, destResX, destResY) &&
            NegotiateOutput(r, destResX, destResY) == Some(r)
  {
    var r := NegotiateOutput(suggested, destResX, destResY).value;
    if OverrideRequested(destResX, destResY) {
      var gt := r.geoTransform;
      OverrideChanges(suggested, destResX, destResY);
      ResolutionFillAndSign(suggested, destResX, destResY);
      var res := EffectiveResolution(gt, destResX, destResY);
      assert res == (gt[1], gt[5]);
      RegridCountOfExtent(gt[0], gt[1], r.pixels, gt[1]);
      RegridCountOfExtent(gt[3], gt[5], r.lines, gt[5]);
      WholeCells(gt[1], r.pixels);
      WholeCells(gt[5], r.lines);
      assert gt[1 := res.0][5 := res.1] == gt;
    }
  }

  /** A whole number of cells measured at the cell size is counted exactly. */
  lemma WholeCells(size: real, count: int)
    requires size != 0.0 && count >= 0
    ensures CellCount(Span(size, count), size) == count
  {
    assert Span(size, count) / size == count as real;
    assert Trunc(count as real + 0.5) == count;
  }

  /**
   * A 1000 x 1000 north-up suggestion at unit resolution, re-gridded at resolution 2
   * (given with either sign for Y), becomes 500 x 500 with pixel size (2, -2).
   */
  lemma RegridExample()
    ensures var s := OutputGeometry([1.0, 1.0, 0.0, 1000.0, 0.0, -1.0], 1000, 1000);
            NegotiateOutput(s, 2.0, -2.0) == Some(OutputGeometry([1.0, 2.0, 0.0, 1000.0, 0.0, -2.0], 500, 500)) &&
            NegotiateOutput(s, 2.0, 2.0) == NegotiateOutput(s, 2.0, -2.0)
  {
    var gt: Coefficients := [1.0, 1.0, 0.0, 1000.0, 0.0, -1.0];
    var expected: Coefficients := [1.0, 2.0, 0.0, 1000.0, 0.0, -2.0];
    assert EffectiveResolution(gt, 2.0, -2.0) == (2.0, -2.0);
    assert EffectiveResolution(gt, 2.0, 2.0) == (2.0, -2.0);
    assert gt[1 := 2.0][5 := -2.0] == expected;
    assert RegridCount(1.0, 1.0, 1000, 2.0) == 500 by {
      RegridCountOfExtent(1.0, 1.0, 1000, 2.0);
      assert Span(1.0, 1000) / 2.0 + 0.5 == 500.5;
    }
    assert RegridCount(1000.0, -1.0, 1000, -2.0) == 500 by {
      RegridCountOfExtent(1000.0, -1.0, 1000, -2.0);
      assert Span(-1.0, 1000) / -2.0 + 0.5 == 500.5;
    }
  }
}
