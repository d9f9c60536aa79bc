/**
 * The six-coefficient affine geotransform that GDAL attaches to a raster:
 *   mapX = c0 + pixel * c1 + line * c2
 *   mapY = c3 + pixel * c4 + line * c5
 * `real` stands for C's `double`; floating-point rounding is not modelled.
 */
module GeoTransform {
  import opened Wrappers

  /** The coefficient array `double[6]`. */
  type Coefficients = s: seq<real> | |s| == 6 witness [0.0, 0.0, 0.0, 0.0, 0.0, 0.0]

  /** A point in pixel/line space or in georeferenced map space. */
  datatype Point = Point(x: real, y: real)

  /** Applies the coefficients to one point, in the operand order the warper uses. */
  function ApplyAffine(gt: Coefficients, p: Point): (q: Point)
  {
    Point(Row(gt[0], gt[1], gt[2], p), Row(gt[3], gt[4], gt[5], p))
  }

  /** One output coordinate: offset + x * (x factor) + y * (y factor). */
  function Row(offset: real, xFactor: real, yFactor: real, p: Point): real
  {
    offset + p.x * xFactor + p.y * yFactor
  }

  /** Determinant of the 2x2 linear part [[c1, c2], [c4, c5]]. */
  function Determinant(gt: Coefficients): real
  {
    gt[1] * gt[5] - gt[2] * gt[4]
  }

  /**
   * Reference inversion of a geotransform: fails exactly when the linear part is
   * singular, and otherwise yields the coefficients of the two-sided inverse mapping.
   */
  function InvertGeoTransform(gt: Coefficients): (inv: Option<Coefficients>)
    ensures inv.None? <==> Determinant(gt) == 0.0
    ensures inv.Some? ==> forall p :: ApplyAffine(inv.value, ApplyAffine(gt, p)) == p
    ensures inv.Some? ==> forall q :: ApplyAffine(gt, ApplyAffine(inv.value, q)) == q
  {
    if Determinant(gt) == 0.0 then None
    else
      assert forall p :: ApplyAffine(CramerInverse(gt), ApplyAffine(gt, p)) == p by {
        forall p ensures ApplyAffine(CramerInverse(gt), ApplyAffine(gt, p)) == p {
          InverseAfterForward(gt, p);
        }
      }
      assert forall q :: ApplyAffine(gt, ApplyAffine(CramerInverse(gt), q)) == q by {
        forall q ensures ApplyAffine(gt, ApplyAffine(CramerInverse(gt), q)) == q {
          ForwardAfterInverse(gt, q);
        }
      }
      Some(CramerInverse(gt))
  }

  /** The inverse coefficients by Cramer's rule. */
  function CramerInverse(gt: Coefficients): Coefficients
    requires Determinant(gt) != 0.0
  {
    CramerOf(gt[0], gt[1], gt[2], gt[3], gt[4], gt[5])
  }

  /** Cramer's rule on the six coefficients taken one by one. */
  function CramerOf(c0: real, c1: real, c2: real, c3: real, c4: real, c5: real): Coefficients
    requires c1 * c5 - c2 * c4 != 0.0
  {
    var det := c1 * c5 - c2 * c4;
    [(c2 * c3 - c0 * c5) / det, c5 / det, -c2 / det, (-c1 * c3 + c0 * c4) / det, -c4 / det, c1 / det]
  }

  /** Undoing a geotransform with its inverse returns the original pixel. */
  lemma InverseAfterForward(gt: Coefficients, p: Point)
    requires Determinant(gt) != 0.0
    ensures ApplyAffine(CramerInverse(gt), ApplyAffine(gt, p)) == p
  {
    CramerSolve(gt[0], gt[1], gt[2], gt[3], gt[4], gt[5], p);
  }

  /** Applying a geotransform after its inverse returns the original map point. */
  lemma ForwardAfterInverse(gt: Coefficients, q: Point)
    requires Determinant(gt) != 0.0
    ensures ApplyAffine(gt, ApplyAffine(CramerInverse(gt), q)) == q
  {
    CramerRecombine(gt[0], gt[1], gt[2], gt[3], gt[4], gt[5], q);
  }

  /** Scalar form of InverseAfterForward. */
  lemma CramerSolve(c0: real, c1: real, c2: real, c3: real, c4: real, c5: real, p: Point)
    requires c1 * c5 - c2 * c4 != 0.0
    ensures var i := CramerOf(c0, c1, c2, c3, c4, c5);
            var m := Point(Row(c0, c1, c2, p), Row(c3, c4, c5, p));
            Row(i[0], i[1], i[2], m) == p.x && Row(i[3], i[4], i[5], m) == p.y
  {
    var d := c1 * c5 - c2 * c4;
    var m := Point(Row(c0, c1, c2, p), Row(c3, c4, c5, p));
    SolveRow(c0, c1, c2, c3, c4, c5, p.x, p.y, m.x, m.y, d);
    SolveRow(c3, c5, c4, c0, c2, c1, p.y, p.x, m.y, m.x, d);
  }

  /** Scalar form of ForwardAfterInverse. */
  lemma CramerRecombine(c0: real, c1: real, c2: real, c3: real, c4: real, c5: real, q: Point)
    requires c1 * c5 - c2 * c4 != 0.0
    ensures var i := CramerOf(c0, c1, c2, c3, c4, c5);
            var p := Point(Row(i[0], i[1], i[2], q), Row(i[3], i[4], i[5], q));
            Row(c0, c1, c2, p) == q.x && Row(c3, c4, c5, p) == q.y
  {
    var d := c1 * c5 - c2 * c4;
    var px := (c2 * c3 - c0 * c5) / d + q.x * (c5 / d) + q.y * (-c2 / d);
    var py := (-c1 * c3 + c0 * c4) / d + q.x * (-c4 / d) + q.y * (c1 / d);
    var i := CramerOf(c0, c1, c2, c3, c4, c5);
    assert Row(i[0], i[1], i[2], q) == px;
    assert Row(i[3], i[4], i[5], q) == py;
    RecombineRow(c0, c1, c2, c3, c4, c5, q.x, q.y, px, py, d);
    RecombineColumn(c0, c1, c2, c3, c4, c5, q.x, q.y, px, py, d);
    assert Row(c0, c1, c2, Point(px, py)) == q.x;
  }

  /**
   * Cramer's rule for one row: with m = c0 + x*c1 + y*c2 and n = c3 + x*c4 + y*c5,
   * the inverse coefficients recover x.
   */
  lemma SolveRow(c0: real, c1: real, c2: real, c3: real, c4: real, c5: real,
                 x: real, y: real, m: real, n: real, d: real)
    requires d != 0.0 && d == c1 * c5 - c2 * c4
    requires m == c0 + x * c1 + y * c2 && n == c3 + x * c4 + y * c5
    ensures (c2 * c3 - c0 * c5) / d + m * (c5 / d) + n * (-c2 / d) == x
  {
    ScaledSum(c2 * c3 - c0 * c5, m, c5, n, -c2, d);
    SolvePolynomial(c0, c1, c2, c3, c4, c5, x, y);
    DivideBack(0.0, x, d);
  }

  /**
   * Cramer's rule read backwards: with px, py the inverse coefficients applied to (x, y),
   * the forward row c0 + px*c1 + py*c2 gives back x.
   */
  lemma RecombineRow(c0: real, c1: real, c2: real, c3: real, c4: real, c5: real,
                     x: real, y: real, px: real, py: real, d: real)
    requires d != 0.0 && d == c1 * c5 - c2 * c4
    requires px == (c2 * c3 - c0 * c5) / d + x * (c5 / d) + y * (-c2 / d)
    requires py == (-c1 * c3 + c0 * c4) / d + x * (-c4 / d) + y * (c1 / d)
    ensures c0 + px * c1 + py * c2 == x
  {
    var nx := c2 * c3 - c0 * c5 + x * c5 + y * -c2;
    var ny := -c1 * c3 + c0 * c4 + x * -c4 + y * c1;
    ScaledSum(c2 * c3 - c0 * c5, x, c5, y, -c2, d);
    ScaledSum(-c1 * c3 + c0 * c4, x, -c4, y, c1, d);
    RecombinePolynomial(c0, c1, c2, c3, c4, c5, x, y);
    RecoverCoordinate(c0, c1, c2, x, px, py, nx, ny, d);
  }

  /** Second row of RecombineRow: the forward row c3 + px*c4 + py*c5 gives back y. */
  lemma RecombineColumn(c0: real, c1: real, c2: real, c3: real, c4: real, c5: real,
                        x: real, y: real, px: real, py: real, d: real)
    requires d != 0.0 && d == c1 * c5 - c2 * c4
    requires px == (c2 * c3 - c0 * c5) / d + x * (c5 / d) + y * (-c2 / d)
    requires py == (-c1 * c3 + c0 * c4) / d + x * (-c4 / d) + y * (c1 / d)
    ensures c3 + px * c4 + py * c5 == y
  {
    var nx := c2 * c3 - c0 * c5 + x * c5 + y * -c2;
    var ny := -c1 * c3 + c0 * c4 + x * -c4 + y * c1;
    ScaledSum(c2 * c3 - c0 * c5, x, c5, y, -c2, d);
    ScaledSum(-c1 * c3 + c0 * c4, x, -c4, y, c1, d);
    RecombineColumnPolynomial(c0, c1, c2, c3, c4, c5, x, y);
    RecoverCoordinate(c3, c4, c5, y, px, py, nx, ny, d);
  }

  /**
   * The last step of both recombinations: px and py are numerators over d, and the
   * forward row's numerator is (target - offset) * d.
   */
  lemma RecoverCoordinate(offset: real, a: real, b: real, target: real,
                          px: real, py: real, nx: real, ny: real, d: real)
    requires d != 0.0 && px == nx / d && py == ny / d
    requires nx * a + ny * b == (target - offset) * d
    ensures offset + px * a + py * b == target
  {
    ScaledPair(nx, ny, a, b, d);
    DivideBack(offset, target, d);
  }

  /** The numerator of SolveRow is x times the determinant. */
  lemma SolvePolynomial(c0: real, c1: real, c2: real, c3: real, c4: real, c5: real, x: real, y: real)
    ensures (c2 * c3 - c0 * c5) + (c0 + x * c1 + y * c2) * c5 + (c3 + x * c4 + y * c5) * -c2
            == (x - 0.0) * (c1 * c5 - c2 * c4)
  {
  }

  /** The numerator of RecombineRow is (x - c0) times the determinant. */
  lemma RecombinePolynomial(c0: real, c1: real, c2: real, c3: real, c4: real, c5: real, x: real, y: real)
    ensures (c2 * c3 - c0 * c5 + x * c5 + y * -c2) * c1 + (-c1 * c3 + c0 * c4 + x * -c4 + y * c1) * c2
            == (x - c0) * (c1 * c5 - c2 * c4)
  {
  }

  /** The numerator of RecombineColumn is (y - c3) times the determinant. */
  lemma RecombineColumnPolynomial(c0: real, c1: real, c2: real, c3: real, c4: real, c5: real, x: real, y: real)
    ensures (c2 * c3 - c0 * c5 + x * c5 + y * -c2) * c4 + (-c1 * c3 + c0 * c4 + x * -c4 + y * c1) * c5
            == (y - c3) * (c1 * c5 - c2 * c4)
  {
  }

  /** A sum of fractions over a common non-zero denominator. */
  lemma ScaledSum(a: real, u: real, b: real, v: real, c: real, d: real)
    requires d != 0.0
    ensures a / d + u * (b / d) + v * (c / d) == (a + u * b + v * c) / d
  {
  }

  /** Two quotients over the same denominator, scaled and added. */
  lemma ScaledPair(u: real, v: real, a: real, b: real, d: real)
    requires d != 0.0
    ensures (u / d) * a + (v / d) * b == (u * a + v * b) / d
  {
  }

  /** Dividing out the determinant again. */
  lemma DivideBack(offset: real, x: real, d: real)
    requires d != 0.0
    ensures offset + ((x - offset) * d) / d == x
  {
  }
}
