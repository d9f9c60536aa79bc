# QGIS georeferencer image warper, modelled in Dafny

This project models `QgsImageWarper`, the part of the QGIS georeferencer that drives GDAL's
warper to write a georeferenced copy of a raster
(`src/app/georeferencer/qgsimagewarper.cpp`). The model has five modules:

- `Wrappers` holds `Option`. It stands in for null pointers and for "not set" results.
- `GeoTransform` holds the six-coefficient affine geotransform and how it is applied to a
  point. It also has a reference inversion by Cramer's rule, proved to be a two-sided
  inverse that fails exactly when the linear part is singular.
- `ResolutionOverride` covers the block of `warpFile` that re-grids GDAL's suggested output
  at a resolution the user gives:
  - the filling of a missing resolution from the suggestion;
  - the north-up sign convention;
  - the north-up guard;
  - the new pixel and line counts, `(int)(extent / res + 0.5)`.

  It is a specification function (`NegotiateOutput`) plus a method that does the same in
  place on the `double[6]` array (`OverrideResolution`).
- `TransformChainModel` covers the `TransformChain` object that `addGeoToPixelTransform`
  builds, and the `GeoToPixelTransform` callback working in place on GDAL's `x`, `y` and
  `panSuccess` arrays:
  - forward: the georeferencing transformer runs first, then the inverse geotransform is
    applied only to the points it mapped;
  - reverse: the geotransform is applied to every point, then the transformer runs.
- `ImageWarper` covers the rest of the file:
  - `toGDALResampleAlg`;
  - the band lists that `openSrcDSAndGetWarpOpt` fills;
  - the guards and the per-band colour and no-data copy of `createDestinationDataset`;
  - `updateWarpProgress` with the static `sWarpCanceled` flag;
  - `warpFile`'s sequence of early failures and its return value: -1 cancelled, 1 success,
    0 failure.

GDAL, Qt and the georeferencing transform are not part of this model. What they report back
to the warper is passed in as data:

- the bands of the opened source, or None when opening fails;
- GDAL's suggested output, or None when GDALSuggestedWarpOutput fails;
- the outcome of each creation call;
- the transformer's per-point mapping;
- the inversion function used for `GDALInvGeoTransform`;
- the progress reports GDAL makes, with the dialog's cancel state at each;
- the result of the warp kernels.

`real` stands for C's `double`. Every `(int)`/`(uint)` conversion of a double is modelled as
truncation toward zero (`Trunc`).

In three places the code does something a reader might not expect; the model follows the code:

- The new pixel and line counts are `(int)(q + 0.5)`, which is truncation of `q + 0.5`
  rather than rounding to nearest for a negative `q`. `Trunc` models it for both signs.
- `warpFile` is declared `int` but its early exits `return false`. The model gives 0 for
  them, and they do not consult or change `sWarpCanceled`.
- After the override, nothing checks that the transform chain was built: a null chain is
  handed to GDAL.

## Model

| member | source | states |
|---|---|---|
| GeoTransform.InvertGeoTransform | src/app/georeferencer/qgsimagewarper.cpp:259-264 | The reference for GDALInvGeoTransform. It fails exactly when the determinant of the linear part is 0. Otherwise the result undoes the geotransform on every point, and the geotransform undoes the result. |
| ResolutionOverride.Trunc | src/app/georeferencer/qgsimagewarper.cpp:199-200 | C's `(int)` cast of a double. The result lies within 1 of the argument, on the side of zero. |
| ResolutionOverride.EffectiveResolution | src/app/georeferencer/qgsimagewarper.cpp:174-184 | A resolution left at 0 is taken from the suggestion (coefficient 1 or 5). Then X is made non-negative and Y non-positive, each equal to the wanted value up to sign. |
| ResolutionOverride.OverrideResolution | src/app/georeferencer/qgsimagewarper.cpp:170-205 | In place on the geotransform array, it succeeds exactly when `NegotiateOutput` does. On success the array and counts are `NegotiateOutput`'s. On failure the array is not written. |
| ResolutionOverride.RegridCountOfExtent | src/app/georeferencer/qgsimagewarper.cpp:193-200 | Counting cells between minX and maxX (or maxY and minY) is counting cells over the suggested extent `c1 * pixels` (or `c5 * lines`). |
| ResolutionOverride.OverrideIsOptional | src/app/georeferencer/qgsimagewarper.cpp:171 | With both resolutions 0 the suggestion is used unchanged. |
| ResolutionOverride.NorthUpGuard | src/app/georeferencer/qgsimagewarper.cpp:187-191 | A requested override fails exactly when the suggestion is not north-up (origin X > 0 and pixel height < 0). |
| ResolutionOverride.OverrideChanges | src/app/georeferencer/qgsimagewarper.cpp:193-204 | On success the origin and rotation terms are kept. Coefficient 1 becomes `|resX|` and 5 becomes `-|resY|`. The counts are the suggested extent counted at the new resolution. |
| ResolutionOverride.ResolutionFillAndSign | src/app/georeferencer/qgsimagewarper.cpp:174-184 | After an override the pixel width is positive and the height negative. A missing X resolution is `|c1|` (the sign is normalised) and a missing Y resolution is `c5`. |
| ResolutionOverride.CountRoundsHalfUp | src/app/georeferencer/qgsimagewarper.cpp:199-200 | For a non-negative quotient `q`, `(int)(q + 0.5)` is the nearest integer, ties going up. |
| ResolutionOverride.OverrideKeepsExtent | src/app/georeferencer/qgsimagewarper.cpp:193-200 | The new counts are within half a cell of the suggested extent divided by the new resolution. |
| ResolutionOverride.OverrideIdempotent | src/app/georeferencer/qgsimagewarper.cpp:170-205 | Re-running the override on its own output at the same resolutions changes nothing (non-negative counts). |
| ResolutionOverride.RegridExample | src/app/georeferencer/qgsimagewarper.cpp:170-205 | A 1000 x 1000 unit-resolution suggestion re-gridded at 2 becomes 500 x 500 at (2, -2). A Y resolution of +2 is treated as -2. |
| TransformChainModel.AddGeoToPixelTransform | src/app/georeferencer/qgsimagewarper.cpp:251-266 | No chain exactly when inverting the copied coefficients fails. Otherwise a new chain holds the transformer, the copy and its inverse. |
| TransformChainModel.CallGeorefTransformer | src/app/georeferencer/qgsimagewarper.cpp:285-288 | The wrapped transformer, called in place, leaves the arrays and its return value as `RunGeoref` says. |
| TransformChainModel.PixelFromMapInPlace | src/app/georeferencer/qgsimagewarper.cpp:290-298 | The inverse geotransform is applied to the points flagged successful. Other points and the flags are left alone. |
| TransformChainModel.MapFromPixelInPlace | src/app/georeferencer/qgsimagewarper.cpp:303-309 | The geotransform is applied to every point whatever its flag. |
| TransformChainModel.GeoToPixelTransform | src/app/georeferencer/qgsimagewarper.cpp:273-317 | A null chain returns false and touches nothing. Otherwise the arrays and the return value are those of `ChainTransform`. |
| TransformChainModel.ForwardPerPoint | src/app/georeferencer/qgsimagewarper.cpp:282-299 | Forward, the chain's result is the transformer's. A point the transformer maps ends at the inverse geotransform of its map position with flag 1. A point it fails on keeps its coordinates with flag 0. |
| TransformChainModel.ReversePerPoint | src/app/georeferencer/qgsimagewarper.cpp:300-315 | Reverse, every point goes through the geotransform and then the transformer. When the transformer refuses, the points are left in map coordinates with their old flags. |
| TransformChainModel.ReverseThenForward | src/app/georeferencer/qgsimagewarper.cpp:273-317 | With an identity transformer and an invertible geotransform, reverse then forward gives back every point, all flagged 1. |
| TransformChainModel.ForwardThenReverse | src/app/georeferencer/qgsimagewarper.cpp:273-317 | With the same setting, forward then reverse gives back every point, all flagged 1. |
| ImageWarper.ToGdalResampleAlg | src/app/georeferencer/qgsimagewarper.cpp:341-361 | Each resampling method maps to the GDAL algorithm of the same name: `FromGdalResampleAlg` maps it back. |
| ImageWarper.ResamplingMapIsFaithful | src/app/georeferencer/qgsimagewarper.cpp:341-361 | The mapping is injective, and every GDAL algorithm with a georeferencer name is reached from that name. |
| ImageWarper.BandMapCoversAllBands | src/app/georeferencer/qgsimagewarper.cpp:58-62 | The band list is strictly increasing and holds exactly the bands 1..n. |
| ImageWarper.OpenSrcDSAndGetWarpOpt | src/app/georeferencer/qgsimagewarper.cpp:39-67 | No options exactly when the source cannot be opened. Otherwise both band arrays are `[1, ..., n]` for the n source bands and the algorithm is `ToGdalResampleAlg`'s. |
| ImageWarper.DestinationNoData | src/app/georeferencer/qgsimagewarper.cpp:123-132 | A source no-data value is copied. Without one, a no-data value is set exactly when "zero as transparent" is on, and it is 0. |
| ImageWarper.CreateDestinationDataset | src/app/georeferencer/qgsimagewarper.cpp:70-136 | Fails when the driver, the creation, the geotransform or (for a valid CRS) the projection fails. Otherwise every destination band carries its source band's colour interpretation, colour table and no-data decision. |
| ImageWarper.NoDataCarriedOver | src/app/georeferencer/qgsimagewarper.cpp:101-132 | A destination band's no-data value differs from its source's exactly when "zero as transparent" is on and the source has none, and it is then 0. |
| ImageWarper.ProgressValue | src/app/georeferencer/qgsimagewarper.cpp:328 | The value shown is in 0..100. It is 100 exactly when the fraction is at least 1, and otherwise the truncated percentage. |
| ImageWarper.ProgressMonotone | src/app/georeferencer/qgsimagewarper.cpp:328 | A larger completed fraction never shows a smaller value. |
| ImageWarper.UpdateWarpProgress | src/app/georeferencer/qgsimagewarper.cpp:324-339 | Shows `ProgressValue`. It tells GDAL to go on exactly when the user has not cancelled, and sets the static flag to whether the user cancelled. |
| ImageWarper.CancelIndex | src/app/georeferencer/qgsimagewarper.cpp:331-335 | The first report on which the user had cancelled: none before it, it is one, and it exists exactly when some report is one. |
| ImageWarper.ChunkAndWarpImage | src/app/georeferencer/qgsimagewarper.cpp:243 | Progress calls stop at the first cancel. The warp succeeds exactly when the engine does and nobody cancelled. The flag is left as on entry when there was no call, and otherwise says whether a cancel happened. |
| ImageWarper.WarpFileCode | src/app/georeferencer/qgsimagewarper.cpp:247 | -1 exactly when the flag is set, 1 exactly when it is clear and GDAL returned CE_None, 0 otherwise. |
| ImageWarper.WarpFile | src/app/georeferencer/qgsimagewarper.cpp:137-248 | The return value and the static flag on exit are those of `WarpFileOutcome`, which tracks every early exit of the C++ function. |
| ImageWarper.CancelGivesMinusOne | src/app/georeferencer/qgsimagewarper.cpp:243-247 | A cancel during the warp makes warpFile return -1 and leaves the flag set. |
| ImageWarper.CancelFlagPersists | src/app/georeferencer/qgsimagewarper.cpp:243-247 | With no progress call, a flag left set by an earlier call makes this one return -1. A warp with progress calls and no cancel clears it. |
| ImageWarper.NotNorthUpFails | src/app/georeferencer/qgsimagewarper.cpp:187-191 | An override on a suggestion that is not north-up makes warpFile return 0 with the flag untouched. |
| ImageWarper.SuccessMeansNoCancel | src/app/georeferencer/qgsimagewarper.cpp:147-247 | warpFile returns 1 only if the transform was initialised, the source opened, GDAL gave a suggestion, the override and the dataset creation succeeded, GDAL succeeded, nobody cancelled and the flag ends clear. |

## Left out

- GDAL I/O is left out: opening and creating files, compression options, the data type of
  band 1, reading and writing pixels. These are external calls. What they report is an input.
- GDALSuggestedWarpOutput is left out, because it is a GDAL algorithm. Its result (or its
  failure) is an input.
- The WKT and OGR export of the CRS is left out, because it is external. Only its success is
  an input.
- ChunkAndWarpImage's kernels and chunking are left out, because they are GDAL internals.
  The model keeps only the progress calls and a success flag. How GDAL reacts to a null
  transform chain is not modelled.
- The Qt progress dialog is left out: its creation, showing and event processing are UI.
  The cancel button state is an input to each progress report.
- `GDALTermProgress` and `createWarpProgressArg` are left out, because they only pass
  pointers around.
- `destroyGeoToPixelTransform` is left out, because memory is managed by Dafny.
- The `z` array of GDAL transformers is left out, because the chain only passes it through.
- `nPointCount` is taken to be the length of the arrays.
- The `default:` branch of `toGDALResampleAlg` is not modelled. It cannot be reached, since
  `ResamplingMethod` has exactly five values.
- IEEE rounding, infinities and NaN are left out: `real` is exact.
- ResolutionOverride.OverrideResolution: requires `ResolutionDefined`. This excludes the one
  division by zero: an override asked only for Y on a suggestion with pixel width 0. There
  maxX equals minX, so C computes 0.0 / 0.0, a NaN, and converting a NaN to int is undefined.
- Integer overflow of `(int)` is left out. So is the conversion of `destPixels` and
  `destLines` to the `uint` parameters of createDestinationDataset, which wraps a negative
  count in C.
- ImageWarper.ProgressValue: requires a non-negative fraction. GDAL reports fractions in
  [0, 1], and `(uint)` of a negative double is undefined in C.
- TransformChainModel.RunGeoref: the wrapped georeferencing transformer is a stand-in. When it
  accepts a batch it sets every flag to 1 or 0, and when it refuses it leaves the arrays
  alone.
- GeoTransform.InvertGeoTransform: the reference inversion fails only on an exactly singular
  matrix. GDAL's GDALInvGeoTransform also refuses near-singular ones, which is why the chain
  takes the inversion as a parameter.
