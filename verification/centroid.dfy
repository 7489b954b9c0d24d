/**
  The centroid (arithmetic mean) of a point sequence and the shift of a point
  sequence to its centroid, as in src/centroid.rs.

  The source reduces the input in one pass to three coordinate sums and a count,
  then divides each sum by the count. It wraps the result in `Some` whatever the
  input: for an empty input the sums default to zero and the count is zero, so
  every coordinate is 0/0, which is NaN. The model keeps that shape: the
  operations return `Some` for every input, and the centroid is `NaN` exactly
  when there are no points.
 */
module Centroid {
  import opened Values
  import opened Geometry

  // ---------------------------------------------------------------------------
  // Reference definitions

  /** The sum of a sequence of reals. */
  function Sum(xs: seq<real>): real {
    if |xs| == 0 then 0.0 else xs[0] + Sum(xs[1..])
  }

  /** One coordinate of every point, in input order. */
  function Coords(pts: seq<Vec3>, a: Axis): (cs: seq<real>)
    ensures |cs| == |pts|
  {
    seq(|pts|, i requires 0 <= i < |pts| => Coord(pts[i], a))
  }

  /** The coordinate-wise sum of a sequence of vectors. */
  function Total(pts: seq<Vec3>): Vec3 {
    Vec3(Sum(Coords(pts, 0)), Sum(Coords(pts, 1)), Sum(Coords(pts, 2)))
  }

  /** The arithmetic mean of a non-empty point sequence. */
  function Mean(pts: seq<Point3>): Vec3
    requires |pts| > 0
  {
    Scale(1.0 / |pts| as real, Total(pts))
  }

  // ---------------------------------------------------------------------------
  // The single pass: three running sums and a running count

  /**
    The reduction state. A sum that has seen no element is `None`, as the
    accumulating wrapper of the source yields nothing for an empty input.
   */
  datatype Accumulator = Accumulator(xSum: Option<real>, ySum: Option<real>, zSum: Option<real>, count: nat)

  function SumOn(acc: Accumulator, a: Axis): Option<real> {
    if a == 0 then acc.xSum else if a == 1 then acc.ySum else acc.zSum
  }

  /** `AddVal` addition: the first value starts the sum, later ones add to it. */
  function AddTo(sum: Option<real>, v: real): (r: Option<real>)
    ensures r.Some?
    ensures r.value == sum.GetOr(0.0) + v
  {
    match sum
    case None => Some(v)
    case Some(s) => Some(s + v)
  }

  /** Adds one point to the running sums and the count. */
  function Push(acc: Accumulator, p: Point3): (r: Accumulator)
    ensures r.count == acc.count + 1
    ensures forall a: Axis :: SumOn(r, a) == Some(SumOn(acc, a).GetOr(0.0) + Coord(p, a))
  {
    Accumulator(AddTo(acc.xSum, p.x), AddTo(acc.ySum, p.y), AddTo(acc.zSum, p.z), acc.count + 1)
  }

  /**
    Folds the points from left to right, in input order. The count is the
    number of points, and a sum is absent exactly when there were none.
   */
  function Accumulate(pts: seq<Point3>): (acc: Accumulator)
    ensures acc.count == |pts|
    ensures forall a: Axis :: SumOn(acc, a).None? <==> |pts| == 0
    decreases |pts|
  {
    if |pts| == 0 then Accumulator(None, None, None, 0)
    else Push(Accumulate(pts[..|pts| - 1]), pts[|pts| - 1])
  }

  lemma {:induction false} SumAppend(xs: seq<real>, v: real)
    ensures Sum(xs + [v]) == Sum(xs) + v
    decreases |xs|
  {
    if |xs| == 0 {
      assert [v][1..] == [];
    } else {
      assert (xs + [v])[1..] == xs[1..] + [v];
      SumAppend(xs[1..], v);
    }
  }

  /**
    The single pass computes the reference sums: it counts every point, and each
    running sum is absent exactly for the empty input and otherwise is the sum
    of that coordinate over all points.
   */
  lemma {:induction false} AccumulateSums(pts: seq<Point3>)
    ensures Accumulate(pts).count == |pts|
    ensures forall a: Axis :: SumOn(Accumulate(pts), a) == if |pts| == 0 then None else Some(Sum(Coords(pts, a)))
    decreases |pts|
  {
    if |pts| > 0 {
      var init := pts[..|pts| - 1];
      var last := pts[|pts| - 1];
      AccumulateSums(init);
      forall a: Axis
        ensures SumOn(Accumulate(pts), a) == Some(Sum(Coords(pts, a)))
      {
        assert Coords(pts, a) == Coords(init, a) + [Coord(last, a)];
        SumAppend(Coords(init, a), Coord(last, a));
      }
    }
  }

  /**
    IEEE division of a coordinate sum by a point count. A zero count only occurs
    with the zero sum, and 0/0 is NaN.
   */
  function Divide(sum: real, count: nat): (q: NanOr<real>)
    requires count == 0 ==> sum == 0.0
    ensures q.NaN? <==> count == 0
    ensures q.Num? ==> q.value * count as real == sum
  {
    if count == 0 then NaN else Num(sum / count as real)
  }

  /** `Point3::new` over the three quotients; NaN coordinates make a NaN point. */
  function MeanPoint(x: NanOr<real>, y: NanOr<real>, z: NanOr<real>): NanOr<Point3> {
    if x.Num? && y.Num? && z.Num? then Num(Vec3(x.value, y.value, z.value)) else NaN
  }

  // ---------------------------------------------------------------------------
  // The operations of the source

  /**
    `centroid_of_points_na`: always `Some`; NaN exactly for the empty input;
    otherwise each coordinate is the sum of that coordinate over the points
    divided by the number of points.
   */
  function CentroidOfPointsNa(pts: seq<Point3>): (r: Option<NanOr<Point3>>)
    ensures r.Some?
    ensures r.value.NaN? <==> |pts| == 0
    ensures |pts| > 0 ==> forall a: Axis :: Coord(r.value.value, a) == Sum(Coords(pts, a)) / |pts| as real
  {
    var acc := Accumulate(pts);
    AccumulateSums(pts);
    var numPoints := acc.count;
    var zero := 0.0;
    var xMean := Divide(acc.xSum.GetOr(zero), numPoints);
    var yMean := Divide(acc.ySum.GetOr(zero), numPoints);
    var zMean := Divide(acc.zSum.GetOr(zero), numPoints);
    Some(MeanPoint(xMean, yMean, zMean))
  }

  /** `point - centroid` for every point, in input order. */
  function Shift(pts: seq<Point3>, centroid: NanOr<Point3>): (r: seq<Vec3>)
    requires centroid.Num? || |pts| == 0
    ensures |r| == |pts|
    ensures forall i :: 0 <= i < |pts| ==> Add(r[i], centroid.value) == pts[i]
  {
    seq(|pts|, i requires 0 <= i < |pts| => Sub(pts[i], centroid.value))
  }

  /**
    `shift_centroid_to_origin_na`: always `Some`, one output per input in input
    order, each the input point minus the mean of all inputs.
   */
  function ShiftCentroidToOriginNa(pts: seq<Point3>): (r: Option<seq<Point3>>)
    ensures r.Some?
    ensures |r.value| == |pts|
    ensures forall i :: 0 <= i < |pts| ==> r.value[i] == Sub(pts[i], Mean(pts))
  {
    match CentroidOfPointsNa(pts)
    case None => None
    case Some(centroid) =>
      var shifted := Shift(pts, centroid);
      if |pts| == 0 then Some(shifted) else CentroidIsMean(pts); Some(shifted)
  }

  /** The points of the array form, `Point3::from` applied to each. */
  function FromArrays(arrs: seq<Array3>): (pts: seq<Point3>)
    ensures |pts| == |arrs|
  {
    seq(|arrs|, i requires 0 <= i < |arrs| => FromArray(arrs[i]))
  }

  /** The array forms of points, `<[T; 3]>::from` applied to each. */
  function ToArrays(pts: seq<Point3>): (arrs: seq<Array3>)
    ensures |arrs| == |pts|
  {
    seq(|pts|, i requires 0 <= i < |pts| => ToArray(pts[i]))
  }

  /** One entry of every array, in input order. */
  function Column(arrs: seq<Array3>, a: Axis): seq<real> {
    seq(|arrs|, i requires 0 <= i < |arrs| => arrs[i][a])
  }

  /**
    `centroid_of_points`: the array form. Always `Some`, NaN exactly for the
    empty input, and otherwise entry a is the sum of entry a over the arrays
    divided by their number.
   */
  function CentroidOfPoints(arrs: seq<Array3>): (r: Option<NanOr<Array3>>)
    ensures r.Some?
    ensures r.value.NaN? <==> |arrs| == 0
    ensures r.value.Num? ==> forall a: Axis :: r.value.value[a] == Sum(Column(arrs, a)) / |arrs| as real
  {
    var pts := FromArrays(arrs);
    assert forall a: Axis :: Coords(pts, a) == Column(arrs, a);
    match CentroidOfPointsNa(pts)
    case None => None
    case Some(c) => Some(if c.Num? then Num(ToArray(c.value)) else NaN)
  }

  /**
    `shift_centroid_to_origin`: the array form. `Some` exactly when the point
    form is, and then the arrays of the point form's outputs, in order.
   */
  function ShiftCentroidToOrigin(arrs: seq<Array3>): (r: Option<seq<Array3>>)
    ensures r.Some? <==> ShiftCentroidToOriginNa(FromArrays(arrs)).Some?
    ensures r.Some? ==> |r.value| == |arrs|
    ensures r.Some? ==> forall i :: 0 <= i < |arrs| ==>
              r.value[i] == ToArray(Sub(FromArray(arrs[i]), Mean(FromArrays(arrs))))
  {
    match ShiftCentroidToOriginNa(FromArrays(arrs))
    case None => Option<seq<Array3>>.None
    case Some(shifted) => Some(ToArrays(shifted))
  }

  // ---------------------------------------------------------------------------
  // Properties

  /**
    The array form and the point form agree: the centroid of the arrays of some
    points is the array of the centroid of the points.
   */
  lemma ArrayFormAgrees(pts: seq<Point3>)
    ensures CentroidOfPoints(ToArrays(pts)).value.NaN? <==> CentroidOfPointsNa(pts).value.NaN?
    ensures |pts| > 0 ==>
              CentroidOfPoints(ToArrays(pts)).value == Num(ToArray(CentroidOfPointsNa(pts).value.value))
  {
    var arrs := ToArrays(pts);
    if |pts| > 0 {
      var c := CentroidOfPoints(arrs).value.value;
      var d := ToArray(CentroidOfPointsNa(pts).value.value);
      forall a: Axis
        ensures c[a] == d[a]
      {
        assert Column(arrs, a) == Coords(pts, a);
      }
      assert c == [c[0], c[1], c[2]] && d == [d[0], d[1], d[2]];
    }
  }

  /** For a non-empty input the centroid is the reference mean. */
  lemma CentroidIsMean(pts: seq<Point3>)
    requires |pts| > 0
    ensures CentroidOfPointsNa(pts) == Some(Num(Mean(pts)))
  {
    var c := CentroidOfPointsNa(pts).value.value;
    var n := |pts| as real;
    forall a: Axis
      ensures Coord(c, a) == Coord(Mean(pts), a)
    {
      assert Sum(Coords(pts, a)) / n == (1.0 / n) * Sum(Coords(pts, a));
    }
    assert c == Vec3(Coord(c, 0), Coord(c, 1), Coord(c, 2));
  }

  /**
    Each coordinate of the centroid depends on that coordinate of the inputs
    only: two inputs of the same length that agree on one axis have centroids
    that agree on that axis.
   */
  lemma CentroidCoordinateIndependent(pts: seq<Point3>, qts: seq<Point3>, a: Axis)
    requires |pts| == |qts|
    requires forall i :: 0 <= i < |pts| ==> Coord(pts[i], a) == Coord(qts[i], a)
    ensures CentroidOfPointsNa(pts).value.NaN? <==> CentroidOfPointsNa(qts).value.NaN?
    ensures |pts| > 0 ==>
              Coord(CentroidOfPointsNa(pts).value.value, a) == Coord(CentroidOfPointsNa(qts).value.value, a)
  {
    assert Coords(pts, a) == Coords(qts, a);
  }

  /** The centroid of a single point is that point. */
  lemma CentroidOfSingleton(p: Point3)
    ensures CentroidOfPointsNa([p]) == Some(Num(p))
  {
    var c := CentroidOfPointsNa([p]).value.value;
    forall a: Axis
      ensures Coord(c, a) == Coord(p, a)
    {
      assert Coords([p], a) == [Coord(p, a)];
      assert Sum([Coord(p, a)]) == Coord(p, a) + Sum([]);
    }
    assert c == Vec3(Coord(c, 0), Coord(c, 1), Coord(c, 2));
  }

  /** Every element minus k. */
  function SubConst(xs: seq<real>, k: real): (ys: seq<real>)
    ensures |ys| == |xs|
    ensures forall i :: 0 <= i < |xs| ==> ys[i] == xs[i] - k
  {
    seq(|xs|, i requires 0 <= i < |xs| => xs[i] - k)
  }

  /** Subtracting k from every element subtracts |xs| * k from the sum. */
  lemma {:induction false} SumSubConst(xs: seq<real>, k: real)
    ensures Sum(SubConst(xs, k)) == Sum(xs) - |xs| as real * k
    decreases |xs|
  {
    if |xs| > 0 {
      assert SubConst(xs, k)[1..] == SubConst(xs[1..], k);
      SumSubConst(xs[1..], k);
    }
  }

  lemma CoordsOfShift(pts: seq<Point3>, c: Point3, a: Axis)
    ensures Coords(Shift(pts, Num(c)), a) == SubConst(Coords(pts, a), Coord(c, a))
  {
  }

  lemma CoordOfMean(pts: seq<Point3>, a: Axis)
    requires |pts| > 0
    ensures Coord(Mean(pts), a) == (1.0 / |pts| as real) * Sum(Coords(pts, a))
  {
  }

  /** On one axis, points shifted by their own mean sum to zero. */
  lemma ShiftedAxisSumsToZero(pts: seq<Point3>, a: Axis)
    requires |pts| > 0
    ensures Sum(Coords(Shift(pts, Num(Mean(pts))), a)) == 0.0
  {
    hide *;
    var xs := Coords(pts, a);
    var k := Coord(Mean(pts), a);
    CoordsOfShift(pts, Mean(pts), a);
    SumSubConst(xs, k);
    CoordOfMean(pts, a);
    MeanResidual(|pts| as real, Sum(xs), k, Sum(SubConst(xs, k)));
  }

  /** With k = s / n, s - n k = 0. */
  lemma MeanResidual(n: real, s: real, k: real, t: real)
    requires n > 0.0 && k == (1.0 / n) * s && t == s - n * k
    ensures t == 0.0
  {
  }

  /** Points shifted by their own centroid sum to the zero vector. */
  lemma ShiftedSumsToZero(pts: seq<Point3>)
    requires |pts| > 0
    ensures Total(Shift(pts, Num(Mean(pts)))) == Origin
  {
    ShiftedAxisSumsToZero(pts, 0);
    ShiftedAxisSumsToZero(pts, 1);
    ShiftedAxisSumsToZero(pts, 2);
  }

  /** The centroid of the shifted points is the origin (the property the source's test asserts). */
  lemma CentroidOfShiftedIsOrigin(pts: seq<Point3>)
    requires |pts| > 0
    ensures CentroidOfPointsNa(ShiftCentroidToOriginNa(pts).value) == Some(Num(Origin))
  {
    var shifted := ShiftCentroidToOriginNa(pts).value;
    CentroidIsMean(pts);
    assert shifted == Shift(pts, Num(Mean(pts)));
    ShiftedSumsToZero(pts);
    CentroidIsMean(shifted);
  }
}
