/**
  The algebraic pipeline of Kabsch alignment, as in src/kabsch.rs: split the
  correspondences, take both centroids, subtract each set's own centroid,
  build the cross-covariance matrix, factor it, correct the sign so that the
  result is a proper rotation, transpose it by reinterpreting its storage, and
  compute the translation that carries the source centroid onto the target
  centroid.

  The singular value decomposition is not modelled: it is injected as a
  function `decompose` that is required to return orthogonal factors U and V^T
  and non-negative singular values that reproduce the matrix.
 */
module Kabsch {
  import opened Values
  import opened Geometry
  import opened Centroid

  /** A correspondence: a source point and the target it should map to. */
  type PointPair = (Point3, Point3)

  /** The factors of a singular value decomposition h = U diag(s) V^T. */
  datatype Svd = Svd(u: Matrix3, singularValues: Vec3, vt: Matrix3)

  ghost predicate IsSvdOf(svd: Svd, h: Matrix3) {
    && Orthogonal(svd.u)
    && Orthogonal(svd.vt)
    && svd.singularValues.x >= 0.0 && svd.singularValues.y >= 0.0 && svd.singularValues.z >= 0.0
    && Mul(Mul(svd.u, Diagonal(svd.singularValues)), svd.vt) == h
  }

  /** `Isometry3`: a rigid transform, rotate and then translate. */
  datatype Isometry = Isometry(rotation: Matrix3, translation: Vec3)

  /** `isometry * point`: rotate the point, then add the translation. */
  function Transform(iso: Isometry, p: Point3): Point3 {
    Add(MulVec(iso.rotation, p), iso.translation)
  }

  /** The squared distance between two points. */
  function SquaredDistance(p: Point3, q: Point3): real {
    Dot(Sub(p, q), Sub(p, q))
  }

  /** The difference of two images is the rotated difference: the translation cancels. */
  lemma TransformDifference(iso: Isometry, p: Point3, q: Point3)
    ensures Sub(Transform(iso, p), Transform(iso, q)) == MulVec(iso.rotation, Sub(p, q))
  {
  }

  /** With an orthogonal rotation the transform keeps every distance. */
  lemma TransformIsRigid(iso: Isometry, p: Point3, q: Point3)
    requires Orthogonal(iso.rotation)
    ensures SquaredDistance(Transform(iso, p), Transform(iso, q)) == SquaredDistance(p, q)
  {
    TransformDifference(iso, p, q);
    OrthogonalKeepsLength(iso.rotation, Sub(p, q));
  }

  // ---------------------------------------------------------------------------
  // Step 1: split the correspondences

  /**
    Splits the pairs into the source points and the target points; both keep
    the input order and the length of the input.
   */
  function Unzip(pairs: seq<PointPair>): (r: (seq<Point3>, seq<Point3>))
    ensures |r.0| == |pairs| && |r.1| == |pairs|
    ensures forall i :: 0 <= i < |pairs| ==> pairs[i] == (r.0[i], r.1[i])
  {
    (seq(|pairs|, i requires 0 <= i < |pairs| => pairs[i].0),
     seq(|pairs|, i requires 0 <= i < |pairs| => pairs[i].1))
  }

  /** Pairs up two sequences of equal length, position by position. */
  function Zip(sources: seq<Point3>, targets: seq<Point3>): (pairs: seq<PointPair>)
    requires |sources| == |targets|
    ensures |pairs| == |sources|
    ensures forall i :: 0 <= i < |pairs| ==> pairs[i].0 == sources[i] && pairs[i].1 == targets[i]
  {
    seq(|sources|, i requires 0 <= i < |sources| => (sources[i], targets[i]))
  }

  /** Unzip and Zip are inverse to each other. */
  lemma UnzipZip(pairs: seq<PointPair>, sources: seq<Point3>, targets: seq<Point3>)
    requires |sources| == |targets|
    ensures Zip(Unzip(pairs).0, Unzip(pairs).1) == pairs
    ensures Unzip(Zip(sources, targets)) == (sources, targets)
  {
    var (s, t) := Unzip(Zip(sources, targets));
    assert s == sources;
    assert t == targets;
  }

  // ---------------------------------------------------------------------------
  // Steps 3 and 4: residuals and the cross-covariance matrix

  /** The products a[k][i] * b[k][j], in order. */
  function Products(a: seq<Vec3>, b: seq<Vec3>, i: Axis, j: Axis): (ps: seq<real>)
    requires |a| == |b|
    ensures |ps| == |a|
    ensures forall k :: 0 <= k < |a| ==> ps[k] == Coord(a[k], i) * Coord(b[k], j)
  {
    seq(|a|, k requires 0 <= k < |a| => Coord(a[k], i) * Coord(b[k], j))
  }

  /** Sum over k of a[k][i] * b[k][j]. */
  function ProductSum(a: seq<Vec3>, b: seq<Vec3>, i: Axis, j: Axis): real
    requires |a| == |b|
  {
    Sum(Products(a, b, i, j))
  }

  /** The sum of the outer products a[k] b[k]^T, the textbook cross-covariance. */
  function SumOfOuterProducts(a: seq<Vec3>, b: seq<Vec3>): Matrix3
    requires |a| == |b|
  {
    if |a| == 0 then ZeroMatrix
    else MatAdd(Outer(a[0], b[0]), SumOfOuterProducts(a[1..], b[1..]))
  }

  lemma {:induction false} ProductSumStep(a: seq<Vec3>, b: seq<Vec3>, i: Axis, j: Axis)
    requires |a| == |b| && |a| > 0
    ensures ProductSum(a, b, i, j) == Coord(a[0], i) * Coord(b[0], j) + ProductSum(a[1..], b[1..], i, j)
  {
    var ps := Products(a, b, i, j);
    var qs := Products(a[1..], b[1..], i, j);
    forall k | 0 <= k < |qs|
      ensures ps[1..][k] == qs[k]
    {
      assert a[1..][k] == a[k + 1] && b[1..][k] == b[k + 1];
    }
    assert ps[1..] == qs;
  }

  lemma GetMatAddOuter(p: Vec3, q: Vec3, m: Matrix3, i: Axis, j: Axis)
    ensures Get(MatAdd(Outer(p, q), m), i, j) == Coord(p, i) * Coord(q, j) + Get(m, i, j)
  {
    GetMatAdd(Outer(p, q), m, i, j);
    GetOuter(p, q, i, j);
  }

  lemma MatrixExt(m: Matrix3, n: Matrix3)
    requires forall i: Axis, j: Axis :: Get(m, i, j) == Get(n, i, j)
    ensures m == n
  {
    assert Get(m, 0, 0) == Get(n, 0, 0) && Get(m, 0, 1) == Get(n, 0, 1) && Get(m, 0, 2) == Get(n, 0, 2);
    assert Get(m, 1, 0) == Get(n, 1, 0) && Get(m, 1, 1) == Get(n, 1, 1) && Get(m, 1, 2) == Get(n, 1, 2);
    assert Get(m, 2, 0) == Get(n, 2, 0) && Get(m, 2, 1) == Get(n, 2, 1) && Get(m, 2, 2) == Get(n, 2, 2);
  }

  /** Entry (i, j) of the sum of outer products is the sum of the products a[k][i] * b[k][j]. */
  lemma {:induction false} SumOfOuterProductsEntry(a: seq<Vec3>, b: seq<Vec3>, i: Axis, j: Axis)
    requires |a| == |b|
    ensures Get(SumOfOuterProducts(a, b), i, j) == ProductSum(a, b, i, j)
    decreases |a|
  {
    if |a| > 0 {
      assert SumOfOuterProducts(a, b) == MatAdd(Outer(a[0], b[0]), SumOfOuterProducts(a[1..], b[1..]));
      SumOfOuterProductsEntry(a[1..], b[1..], i, j);
      ProductSumStep(a, b, i, j);
      GetMatAddOuter(a[0], b[0], SumOfOuterProducts(a[1..], b[1..]), i, j);
    }
  }

  /**
    `Matrix3xX::from_columns(a) * Matrix3xX::from_columns(b).transpose()`: the
    points of a are the columns of a 3xN matrix A, those of b the columns of B,
    and the product A B^T has entry (i, j) = sum over k of a[k][i] * b[k][j].
    It equals the sum of the outer products a[k] b[k]^T; the first sequence
    gives the row axis, the second the column axis.
   */
  function CrossCovariance(a: seq<Vec3>, b: seq<Vec3>): (m: Matrix3)
    requires |a| == |b|
    ensures m == SumOfOuterProducts(a, b)
    ensures forall i: Axis, j: Axis :: Get(m, i, j) == ProductSum(a, b, i, j)
  {
    var m := Matrix3(
      Vec3(ProductSum(a, b, 0, 0), ProductSum(a, b, 0, 1), ProductSum(a, b, 0, 2)),
      Vec3(ProductSum(a, b, 1, 0), ProductSum(a, b, 1, 1), ProductSum(a, b, 1, 2)),
      Vec3(ProductSum(a, b, 2, 0), ProductSum(a, b, 2, 1), ProductSum(a, b, 2, 2)));
    assert m == SumOfOuterProducts(a, b) by {
      forall i: Axis, j: Axis
        ensures Get(m, i, j) == Get(SumOfOuterProducts(a, b), i, j)
      {
        SumOfOuterProductsEntry(a, b, i, j);
      }
      MatrixExt(m, SumOfOuterProducts(a, b));
    }
    m
  }

  /** Exchanging the roles of the two sequences transposes the cross-covariance. */
  lemma CrossCovarianceSwap(a: seq<Vec3>, b: seq<Vec3>)
    requires |a| == |b|
    ensures CrossCovariance(b, a) == Transpose(CrossCovariance(a, b))
  {
    forall i: Axis, j: Axis
      ensures ProductSum(b, a, i, j) == ProductSum(a, b, j, i)
    {
      assert Products(b, a, i, j) == Products(a, b, j, i);
    }
  }

  // ---------------------------------------------------------------------------
  // Step 5: the proper-rotation correction

  /**
    `Float::signum` on a real: +1 for zero and positive values, -1 for
    negative ones. It is never 0.
   */
  function Signum(x: real): (d: real)
    ensures d == 1.0 || d == -1.0
    ensures d < 0.0 <==> x < 0.0
  {
    if x < 0.0 then -1.0 else 1.0
  }

  /**
    U diag(1, 1, d) V^T with d the sign of det(U V^T). For orthogonal U and V^T
    it is a proper rotation (orthogonal, determinant +1) whether or not U V^T
    is a reflection, and when U V^T is already proper it is U V^T itself.
   */
  function CorrectedRotation(u: Matrix3, vt: Matrix3): (r: Matrix3)
    ensures Orthogonal(u) && Orthogonal(vt) ==> ProperRotation(r)
    ensures Det(Mul(u, vt)) >= 0.0 ==> r == Mul(u, vt)
  {
    var e := Det(Mul(u, vt));
    var r := Mul(Mul(u, Diagonal(Vec3(1.0, 1.0, Signum(e)))), vt);
    assert Orthogonal(u) && Orthogonal(vt) ==> ProperRotation(r) by {
      if Orthogonal(u) && Orthogonal(vt) {
        ProductDet(u, vt);
        SignCancels(e);
        CorrectedRotationOrthogonal(u, vt, Signum(e));
        CorrectedRotationDet(u, vt, Signum(e));
      }
    }
    assert e >= 0.0 ==> r == Mul(u, vt) by {
      if e >= 0.0 {
        assert Diagonal(Vec3(1.0, 1.0, 1.0)) == Identity;
        MulIdentity(u);
      }
    }
    r
  }

  /** For orthogonal U and V^T, det(U V^T) is +1 or -1. */
  lemma ProductDet(u: Matrix3, vt: Matrix3)
    requires Orthogonal(u) && Orthogonal(vt)
    ensures Det(Mul(u, vt)) == 1.0 || Det(Mul(u, vt)) == -1.0
  {
    OrthogonalMul(u, vt);
    OrthogonalDet(Mul(u, vt));
  }

  /** U diag(1, 1, d) V^T is orthogonal for orthogonal U, V^T and d = +-1. */
  lemma CorrectedRotationOrthogonal(u: Matrix3, vt: Matrix3, d: real)
    requires Orthogonal(u) && Orthogonal(vt)
    requires d == 1.0 || d == -1.0
    ensures Orthogonal(Mul(Mul(u, Diagonal(Vec3(1.0, 1.0, d))), vt))
  {
    hide *;
    var dm := Diagonal(Vec3(1.0, 1.0, d));
    DiagonalSignOrthogonal(d);
    OrthogonalMul(u, dm);
    OrthogonalMul(Mul(u, dm), vt);
  }

  /** det(U diag(1, 1, d) V^T) = det(U V^T) d. */
  lemma CorrectedRotationDet(u: Matrix3, vt: Matrix3, d: real)
    ensures Det(Mul(Mul(u, Diagonal(Vec3(1.0, 1.0, d))), vt)) == Det(Mul(u, vt)) * d
  {
    hide *;
    var dm := Diagonal(Vec3(1.0, 1.0, d));
    DetMul3(u, dm, vt);
    DetMul(u, vt);
    DetDiagonal(Vec3(1.0, 1.0, d));
    ProductChain(Det(Mul(Mul(u, dm), vt)), Det(u), Det(dm), Det(vt), Det(Mul(u, vt)));
  }

  /** m = (a b) c and p = a c give m = p b. */
  lemma ProductChain(m: real, a: real, b: real, c: real, p: real)
    requires m == (a * b) * c && p == a * c
    ensures m == p * b
  {
  }

  /** For e = +-1, e * signum(e) = 1. */
  lemma SignCancels(e: real)
    requires e == 1.0 || e == -1.0
    ensures e * Signum(e) == 1.0
  {
  }

  // ---------------------------------------------------------------------------
  // Step 6: transpose by reinterpreting the storage

  /** `as_slice()`: the nine entries in column-major order. */
  function ColumnMajorSlice(m: Matrix3): (s: seq<real>)
    ensures |s| == 9
    ensures forall i: Axis, j: Axis :: s[3 * j + i] == Get(m, i, j)
  {
    [m.r0.x, m.r1.x, m.r2.x, m.r0.y, m.r1.y, m.r2.y, m.r0.z, m.r1.z, m.r2.z]
  }

  /** `Matrix3::from_row_slice_generic`: nine entries read in row-major order. */
  function FromRowSlice(s: seq<real>): (m: Matrix3)
    requires |s| == 9
    ensures forall i: Axis, j: Axis :: Get(m, i, j) == s[3 * i + j]
  {
    Matrix3(Vec3(s[0], s[1], s[2]), Vec3(s[3], s[4], s[5]), Vec3(s[6], s[7], s[8]))
  }

  /** Reading a column-major slice back in row-major order transposes the matrix. */
  lemma ReinterpretIsTranspose(m: Matrix3)
    ensures FromRowSlice(ColumnMajorSlice(m)) == Transpose(m)
    ensures forall i: Axis, j: Axis :: Get(FromRowSlice(ColumnMajorSlice(m)), i, j) == Get(m, j, i)
  {
    var r := FromRowSlice(ColumnMajorSlice(m));
    MatrixExt(r, Transpose(m));
  }

  // ---------------------------------------------------------------------------
  // Step 7: the translation

  /** target centroid - R * source centroid; NaN if either centroid is NaN. */
  function Translation(targetCentroid: NanOr<Point3>, rotation: Matrix3, inputCentroid: NanOr<Point3>): (t: NanOr<Vec3>)
    ensures t.Num? <==> targetCentroid.Num? && inputCentroid.Num?
    ensures t.Num? ==> Add(MulVec(rotation, inputCentroid.value), t.value) == targetCentroid.value
  {
    if targetCentroid.Num? && inputCentroid.Num? then
      Num(Sub(targetCentroid.value, MulVec(rotation, inputCentroid.value)))
    else
      NaN
  }

  // ---------------------------------------------------------------------------
  // The whole pipeline

  /**
    The cross-covariance of the residuals about the means, sources on the row
    axis and targets on the column axis, as the sum of outer products.
   */
  function CenteredCovariance(pairs: seq<PointPair>): Matrix3
    requires |pairs| > 0
  {
    var (s, t) := Unzip(pairs);
    SumOfOuterProducts(Shift(s, Num(Mean(s))), Shift(t, Num(Mean(t))))
  }

  /**
    `kabsch`. An empty input panics: the centroids are NaN, the residual lists
    are empty, and `Matrix3xX::from_columns` asserts that it is given at least
    one column. Otherwise the result is `Some` isometry whose rotation is
    proper, whose rotation is the transpose of the sign-corrected U V^T of the
    decomposition of the centred cross-covariance, and which carries the
    source mean exactly onto the target mean.
   */
  function Kabsch(pairs: seq<PointPair>, decompose: Matrix3 -> Svd): (r: Outcome<Option<Isometry>>)
    requires forall h :: IsSvdOf(decompose(h), h)
    ensures r.Panics? <==> |pairs| == 0
    ensures r.Returns? ==> r.result.Some? && ProperRotation(r.result.value.rotation)
    ensures |pairs| > 0 ==>
              var svd := decompose(CenteredCovariance(pairs));
              Transpose(r.result.value.rotation) == CorrectedRotation(svd.u, svd.vt)
    ensures |pairs| > 0 ==>
              Transform(r.result.value, Mean(Unzip(pairs).0)) == Mean(Unzip(pairs).1)
  {
    var (inputs, targets) := Unzip(pairs);
    match (CentroidOfPointsNa(inputs), CentroidOfPointsNa(targets))
    case (None, _) => Returns(None)
    case (_, None) => Returns(None)
    case (Some(inputCentroid), Some(targetCentroid)) =>
      var inputResiduals := Shift(inputs, inputCentroid);
      var targetResiduals := Shift(targets, targetCentroid);
      if |inputResiduals| == 0 then
        Panics
      else
        CentroidIsMean(inputs);
        CentroidIsMean(targets);
        var covariance := CrossCovariance(inputResiduals, targetResiduals);
        assert covariance == CenteredCovariance(pairs);
        var svd := decompose(covariance);
        assert IsSvdOf(decompose(covariance), covariance);
        var rotationT := CorrectedRotation(svd.u, svd.vt);
        var rotation := FromRowSlice(ColumnMajorSlice(rotationT));
        ReinterpretIsTranspose(rotationT);
        TransposeTranspose(rotationT);
        TransposeIsProper(rotationT);
        var translation := Translation(targetCentroid, rotation, inputCentroid);
        Returns(Some(Isometry(rotation, translation.value)))
  }

  lemma TransposeIsProper(m: Matrix3)
    requires ProperRotation(m)
    ensures ProperRotation(Transpose(m))
  {
    OrthogonalTranspose(m);
    DetTranspose(m);
  }

  // ---------------------------------------------------------------------------
  // Properties of the pipeline

  /** The residuals of each set sum to the zero vector. */
  lemma ResidualsSumToZero(pairs: seq<PointPair>)
    requires |pairs| > 0
    ensures Total(Shift(Unzip(pairs).0, CentroidOfPointsNa(Unzip(pairs).0).value)) == Origin
    ensures Total(Shift(Unzip(pairs).1, CentroidOfPointsNa(Unzip(pairs).1).value)) == Origin
  {
    var (inputs, targets) := Unzip(pairs);
    CentroidIsMean(inputs);
    CentroidIsMean(targets);
    ShiftedSumsToZero(inputs);
    ShiftedSumsToZero(targets);
  }
}
