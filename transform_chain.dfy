/**
 * The transform chain that QgsImageWarper hands to GDAL's warper as its pixel transformer:
 * the georeferencing transformer (source pixel <-> map) composed with the destination
 * geotransform (map <-> destination pixel).
 */
module TransformChainModel {
  import opened Wrappers
  import opened GeoTransform

  /**
   * The georeferencing transformer that the chain wraps (QgsGeorefTransform's GDAL
   * callback, not part of this model). `accepts` is the callback's overall return value;
   * `pointMap(dstToSrc, p)` is what it does to one point, None marking a point it fails on.
   */
  datatype GeorefTransformer = GeorefTransformer(accepts: bool, pointMap: (bool, Point) -> Option<Point>)

  /** The transformer that maps every point to itself, in both directions. */
  const IdentityTransformer := GeorefTransformer(true, (dstToSrc: bool, p: Point) => Some(p))

  /** A batch of points as GDAL passes it: parallel x, y and per-point success arrays. */
  datatype Batch = Batch(x: seq<real>, y: seq<real>, success: seq<int>)
  {
    predicate WellFormed()
    {
      |x| == |y| == |success|
    }

    function PointAt(i: int): Point
      requires WellFormed() && 0 <= i < |x|
    {
      Point(x[i], y[i])
    }
  }

  /**
   * One call of the georeferencing transformer on a batch, as this model assumes it behaves:
   * when it accepts the batch, every point it can map is replaced and flagged 1, every other
   * point is kept and flagged 0; when it refuses, nothing changes.
   */
  function RunGeoref(t: GeorefTransformer, dstToSrc: bool, b: Batch): (r: (bool, Batch))
    requires b.WellFormed()
    ensures r.0 == t.accepts && r.1.WellFormed() && |r.1.x| == |b.x|
  {
    if !t.accepts then (false, b)
    else
      var n := |b.x|;
      var mapped := seq(n, i requires 0 <= i < n => t.pointMap(dstToSrc, b.PointAt(i)));
      (true, Batch(seq(n, i requires 0 <= i < n => if mapped[i].Some? then mapped[i].value.x else b.x[i]),
                   seq(n, i requires 0 <= i < n => if mapped[i].Some? then mapped[i].value.y else b.y[i]),
                   seq(n, i requires 0 <= i < n => if mapped[i].Some? then 1 else 0)))
  }

  /** Destination pixel/line to map coordinates, for every point whatever its flag. */
  function MapFromPixel(gt: Coefficients, b: Batch): (r: Batch)
    requires b.WellFormed()
    ensures r.WellFormed() && |r.x| == |b.x|
  {
    var n := |b.x|;
    Batch(seq(n, i requires 0 <= i < n => ApplyAffine(gt, b.PointAt(i)).x),
          seq(n, i requires 0 <= i < n => ApplyAffine(gt, b.PointAt(i)).y),
          b.success)
  }

  /** Map coordinates to destination pixel/line, only for the points flagged as successful. */
  function PixelFromMap(inv: Coefficients, b: Batch): (r: Batch)
    requires b.WellFormed()
    ensures r.WellFormed() && |r.x| == |b.x|
  {
    var n := |b.x|;
    Batch(seq(n, i requires 0 <= i < n => if b.success[i] != 0 then ApplyAffine(inv, b.PointAt(i)).x else b.x[i]),
          seq(n, i requires 0 <= i < n => if b.success[i] != 0 then ApplyAffine(inv, b.PointAt(i)).y else b.y[i]),
          b.success)
  }

  /**
   * What one call of the chain does to a batch. Forward (source pixel to destination pixel):
   * run the georeferencing transformer, then the inverse geotransform on the points it
   * mapped. Reverse (destination pixel to source pixel): the geotransform on every point,
   * then the georeferencing transformer.
   */
  function ChainTransform(gt: Coefficients, inv: Coefficients, t: GeorefTransformer,
                          dstToSrc: bool, b: Batch): (r: (bool, Batch))
    requires b.WellFormed()
  {
    if !dstToSrc then
      var (ok, mapped) := RunGeoref(t, false, b);
      if !ok then (false, mapped) else (true, PixelFromMap(inv, mapped))
    else
      RunGeoref(t, true, MapFromPixel(gt, b))
  }

  /** The TransformChain struct: the wrapped transformer, a copy of the geotransform and its inverse. */
  class TransformChain {
    const georefTransformer: GeorefTransformer
    const geoTransform: Coefficients
    const invGeoTransform: Coefficients

    constructor (t: GeorefTransformer, gt: Coefficients, inv: Coefficients)
      ensures georefTransformer == t && geoTransform == gt && invGeoTransform == inv
    {
      georefTransformer := t;
      geoTransform := gt;
      invGeoTransform := inv;
    }
  }

  /**
   * addGeoToPixelTransform: copies the six coefficients, inverts the copy with `invert`
   * (GDALInvGeoTransform), and yields no chain when the inversion fails.
   */
  method AddGeoToPixelTransform(t: GeorefTransformer, padfGeotransform: array<real>,
                                invert: Coefficients -> Option<Coefficients>)
    returns (chain: TransformChain?)
    requires padfGeotransform.Length == 6
    ensures chain == null <==> invert(padfGeotransform[..]).None?
    ensures chain != null ==>
              fresh(chain) && chain.georefTransformer == t &&
              chain.geoTransform == padfGeotransform[..] &&
              invert(padfGeotransform[..]) == Some(chain.invGeoTransform)
  {
    var copy: Coefficients := padfGeotransform[..];
    var inverted := invert(copy);
    if inverted.None? {
      return null;
    }
    chain := new TransformChain(t, copy, inverted.value);
  }

  /** The georeferencing transformer invoked in place on GDAL's arrays. */
  method CallGeorefTransformer(t: GeorefTransformer, dstToSrc: bool,
                               x: array<real>, y: array<real>, success: array<int>)
    returns (ok: bool)
    requires x.Length == y.Length == success.Length && x != y
    modifies x, y, success
    ensures (ok, Batch(x[..], y[..], success[..])) ==
            RunGeoref(t, dstToSrc, Batch(old(x[..]), old(y[..]), old(success[..])))
  {
    var r := RunGeoref(t, dstToSrc, Batch(x[..], y[..], success[..]));
    ok := r.0;
    forall i | 0 <= i < x.Length {
      x[i] := r.1.x[i];
    }
    forall i | 0 <= i < y.Length {
      y[i] := r.1.y[i];
    }
    forall i | 0 <= i < success.Length {
      success[i] := r.1.success[i];
    }
    assert x[..] == r.1.x && y[..] == r.1.y && success[..] == r.1.success;
  }

  /** The pixel/line step of the forward direction: the inverse geotransform on every point flagged as mapped. */
  method PixelFromMapInPlace(inv: Coefficients, x: array<real>, y: array<real>, success: array<int>)
    requires x.Length == y.Length == success.Length && x != y
    modifies x, y
    ensures Batch(x[..], y[..], success[..]) == PixelFromMap(inv, Batch(old(x[..]), old(y[..]), success[..]))
  {
    ghost var mapped := Batch(x[..], y[..], success[..]);
    for i := 0 to x.Length
      invariant forall k :: 0 <= k < i ==> x[k] == PixelFromMap(inv, mapped).x[k] && y[k] == PixelFromMap(inv, mapped).y[k]
      invariant forall k :: i <= k < x.Length ==> x[k] == mapped.x[k] && y[k] == mapped.y[k]
    {
      if success[i] == 0 {
        continue;
      }
      var xP := x[i];
      var yP := y[i];
      x[i] := inv[0] + xP * inv[1] + yP * inv[2];
      y[i] := inv[3] + xP * inv[4] + yP * inv[5];
    }
    assert x[..] == PixelFromMap(inv, mapped).x && y[..] == PixelFromMap(inv, mapped).y;
  }

  /** The map step of the reverse direction: the geotransform on every point, whatever its flag. */
  method MapFromPixelInPlace(gt: Coefficients, x: array<real>, y: array<real>, success: array<int>)
    requires x.Length == y.Length == success.Length && x != y
    modifies x, y
    ensures Batch(x[..], y[..], success[..]) == MapFromPixel(gt, Batch(old(x[..]), old(y[..]), success[..]))
  {
    ghost var original := Batch(x[..], y[..], success[..]);
    for i := 0 to x.Length
      invariant forall k :: 0 <= k < i ==> x[k] == MapFromPixel(gt, original).x[k] && y[k] == MapFromPixel(gt, original).y[k]
      invariant forall k :: i <= k < x.Length ==> x[k] == original.x[k] && y[k] == original.y[k]
    {
      var P := x[i];
      var L := y[i];
      x[i] := gt[0] + P * gt[1] + L * gt[2];
      y[i] := gt[3] + P * gt[4] + L * gt[5];
    }
    assert x[..] == MapFromPixel(gt, original).x && y[..] == MapFromPixel(gt, original).y;
  }

  /**
   * GeoToPixelTransform, the callback GDAL's warper calls on batches of points: a null
   * chain refuses and leaves the arrays alone; otherwise the arrays end up as
   * ChainTransform says.
   */
  method GeoToPixelTransform(chain: TransformChain?, dstToSrc: bool,
                             x: array<real>, y: array<real>, success: array<int>)
    returns (ok: bool)
    requires x.Length == y.Length == success.Length && x != y
    modifies x, y, success
    ensures chain == null ==> !ok && unchanged(x, y, success)
    ensures chain != null ==>
              var r := ChainTransform(chain.geoTransform, chain.invGeoTransform, chain.georefTransformer,
                                      dstToSrc, Batch(old(x[..]), old(y[..]), old(success[..])));
              ok == r.0 && x[..] == r.1.x && y[..] == r.1.y && success[..] == r.1.success
  {
    if chain == null {
      return false;
    }
    if !dstToSrc {
      ok := CallGeorefTransformer(chain.georefTransformer, dstToSrc, x, y, success);
      if !ok {
        return false;
      }
      PixelFromMapInPlace(chain.invGeoTransform, x, y, success);
    } else {
      MapFromPixelInPlace(chain.geoTransform, x, y, success);
      ok := CallGeorefTransformer(chain.georefTransformer, dstToSrc, x, y, success);
      if !ok {
        return false;
      }
    }
    return true;
  }

  /**
   * Forward direction, point by point: a point the georeferencing transformer maps ends up
   * at the inverse geotransform of its map position and is flagged 1; a point it fails on
   * keeps its coordinates and is flagged 0. A refusal of the whole batch is a refusal of the chain.
   */
  lemma {:induction false} ForwardPerPoint(gt: Coefficients, inv: Coefficients, t: GeorefTransformer, b: Batch)
    requires b.WellFormed()
    ensures ChainTransform(gt, inv, t, false, b).0 == t.accepts
    ensures t.accepts ==>
              var r := ChainTransform(gt, inv, t, false, b).1;
              r.WellFormed() && |r.x| == |b.x| &&
              forall i :: 0 <= i < |b.x| ==>
                match t.pointMap(false, b.PointAt(i))
                case Some(q) => r.PointAt(i) == ApplyAffine(inv, q) && r.success[i] == 1
                case None => r.PointAt(i) == b.PointAt(i) && r.success[i] == 0
  {
    if t.accepts {
      var mapped := RunGeoref(t, false, b).1;
      var r := PixelFromMap(inv, mapped);
      forall i | 0 <= i < |b.x|
        ensures match t.pointMap(false, b.PointAt(i))
                case Some(q) => r.PointAt(i) == ApplyAffine(inv, q) && r.success[i] == 1
                case None => r.PointAt(i) == b.PointAt(i) && r.success[i] == 0
      {
        match t.pointMap(false, b.PointAt(i))
        case Some(q) =>
          assert mapped.PointAt(i) == q && mapped.success[i] == 1;
        case None =>
          assert mapped.PointAt(i) == b.PointAt(i) && mapped.success[i] == 0;
      }
    }
  }

  /**
   * Reverse direction, point by point: every point goes through the geotransform whatever
   * its incoming flag, then through the georeferencing transformer. When the transformer
   * refuses the batch, the points are left in map coordinates.
   */
  lemma {:induction false} ReversePerPoint(gt: Coefficients, inv: Coefficients, t: GeorefTransformer, b: Batch)
    requires b.WellFormed()
    ensures ChainTransform(gt, inv, t, true, b).0 == t.accepts
    ensures var r := ChainTransform(gt, inv, t, true, b).1;
            r.WellFormed() && |r.x| == |b.x| &&
            forall i :: 0 <= i < |b.x| ==>
              var m := ApplyAffine(gt, b.PointAt(i));
              if !t.accepts then r.PointAt(i) == m && r.success[i] == b.success[i]
              else match t.pointMap(true, m)
                   case Some(q) => r.PointAt(i) == q && r.success[i] == 1
                   case None => r.PointAt(i) == m && r.success[i] == 0
  {
    var inMap := MapFromPixel(gt, b);
    var r := ChainTransform(gt, inv, t, true, b).1;
    forall i | 0 <= i < |b.x|
      ensures var m := ApplyAffine(gt, b.PointAt(i));
              if !t.accepts then r.PointAt(i) == m && r.success[i] == b.success[i]
              else match t.pointMap(true, m)
                   case Some(q) => r.PointAt(i) == q && r.success[i] == 1
                   case None => r.PointAt(i) == m && r.success[i] == 0
    {
      assert inMap.PointAt(i) == ApplyAffine(gt, b.PointAt(i));
    }
  }

  /** The flags every point carries after a batch in which each point was mapped. */
  function AllMapped(n: nat): (flags: seq<int>)
    ensures |flags| == n && forall i :: 0 <= i < n ==> flags[i] == 1
  {
    seq(n, i => 1)
  }

  /**
   * With a georeferencing transformer that maps every point to itself, a destination pixel
   * taken backwards to the source and forwards again lands where it started.
   */
  lemma {:induction false} ReverseThenForward(gt: Coefficients, b: Batch)
    requires b.WellFormed() && InvertGeoTransform(gt).Some?
    ensures var inv := InvertGeoTransform(gt).value;
            var back := ChainTransform(gt, inv, IdentityTransformer, true, b);
            back.0 && back.1.WellFormed() &&
            ChainTransform(gt, inv, IdentityTransformer, false, back.1) == (true, Batch(b.x, b.y, AllMapped(|b.x|)))
  {
    var inv := InvertGeoTransform(gt).value;
    var n := |b.x|;
    var back := ChainTransform(gt, inv, IdentityTransformer, true, b).1;
    ReversePerPoint(gt, inv, IdentityTransformer, b);
    ForwardPerPoint(gt, inv, IdentityTransformer, back);
    var fwd := ChainTransform(gt, inv, IdentityTransformer, false, back).1;
    forall i | 0 <= i < n
      ensures fwd.x[i] == b.x[i] && fwd.y[i] == b.y[i] && fwd.success[i] == 1
    {
      assert back.PointAt(i) == ApplyAffine(gt, b.PointAt(i));
      assert fwd.PointAt(i) == ApplyAffine(inv, ApplyAffine(gt, b.PointAt(i)));
    }
    assert fwd.x == b.x && fwd.y == b.y && fwd.success == AllMapped(n);
  }

  /**
   * With the same identity transformer, a source pixel taken forwards to the destination
   * and backwards again lands where it started.
   */
  lemma {:induction false} ForwardThenReverse(gt: Coefficients, b: Batch)
    requires b.WellFormed() && InvertGeoTransform(gt).Some?
    ensures var inv := InvertGeoTransform(gt).value;
            var there := ChainTransform(gt, inv, IdentityTransformer, false, b);
            there.0 && there.1.WellFormed() &&
            ChainTransform(gt, inv, IdentityTransformer, true, there.1) == (true, Batch(b.x, b.y, AllMapped(|b.x|)))
  {
    var inv := InvertGeoTransform(gt).value;
    var n := |b.x|;
    var there := ChainTransform(gt, inv, IdentityTransformer, false, b).1;
    ForwardPerPoint(gt, inv, IdentityTransformer, b);
    ReversePerPoint(gt, inv, IdentityTransformer, there);
    var rev := ChainTransform(gt, inv, IdentityTransformer, true, there).1;
    forall i | 0 <= i < n
      ensures rev.x[i] == b.x[i] && rev.y[i] == b.y[i] && rev.success[i] == 1
    {
      assert there.PointAt(i) == ApplyAffine(inv, b.PointAt(i));
      assert rev.PointAt(i) == ApplyAffine(gt, ApplyAffine(inv, b.PointAt(i)));
    }
    assert rev.x == b.x && rev.y == b.y && rev.success == AllMapped(n);
  }
}
