# Centroid and Kabsch alignment, modelled in Dafny

This project models the centroid helpers and the algebraic skeleton of the
Kabsch alignment of the Rust crate `newslab-geom-algo`.

- `src/centroid.rs` reduces a sequence of 3-D points in one pass. It produces
  three coordinate sums and a count. It divides each sum by the count to get
  the centroid, and it subtracts the centroid from every point ("shift to
  origin"). Each operation has a point form (`_na`, nalgebra `Point3`) and an
  array form (`[T; 3]`).
- `src/kabsch.rs` computes the rigid transform that carries a set of source
  points onto their target points. It splits the correspondences and shifts
  each set to its own centroid. It then builds the 3x3 cross-covariance
  matrix and takes its singular value decomposition U diag(s) V^T. It
  corrects U V^T to a proper rotation with diag(1, 1, sign det(U V^T)).
  Finally it transposes the result by re-reading its column-major storage in
  row-major order and computes the translation.

Files:

- `values.dfy` (module `Values`) holds `Option`, the `Outcome` of a call
  that either returns or panics (what `Kabsch.Kabsch` returns), and the
  `NanOr` marker for the IEEE NaN that an empty input produces.
- `geometry.dfy` (module `Geometry`) holds the vector and matrix algebra the
  source takes from nalgebra. It proves the facts the rotation argument needs:
  associativity, `det(AB) = det A det B`, `det A^T = det A`, and closure of
  the orthogonal matrices under products and transposition. A matrix is
  orthogonal when M M^T = I. The converse identity M^T M = I is proved from
  that, not assumed.
- `centroid.dfy` (module `Centroid`) holds the centroid operations, proved
  equal to a reference mean (`Centroid.Mean`).
- `kabsch.dfy` (module `Kabsch`) holds the alignment pipeline.

Real numbers stand for the floating-point scalar `T`, so the arithmetic is
exact.

One might expect an empty input to have no centroid. The centroid code
returns `Some` for every input: the sums default to zero, the count is
zero, and every coordinate becomes 0/0, which is NaN. The model follows the
code. The centroid operations return `Some` for every input, and the
centroid is `NaN` exactly when the input is empty.

`kabsch` does not return for an empty input. Its centroids are NaN and its
residual lists are empty. nalgebra's `Matrix3xX::from_columns`
(src/kabsch.rs:40) asserts that it is given at least one column, so the
call panics. The model returns `Panics` (the `Outcome` type in `Values`)
exactly for the empty input.

`kabsch` (src/kabsch.rs:27-28) calls the array-form `centroid_of_points` on
borrowed points. The model uses the point form there. `Centroid.ArrayFormAgrees`
proves that the two forms give the same centroid.

## Model

| member | source | states |
|---|---|---|
| Centroid.AddTo | src/centroid.rs:52-58 | The `AddVal` sum is always present after an addition. It is the previous sum, or 0 if there was none, plus the new value. |
| Centroid.Push | src/centroid.rs:54-58 | Pushing a point adds one to the count and adds the point's coordinate on each axis to that axis's sum. |
| Centroid.Accumulate | src/centroid.rs:52-58 | The left fold counts the points. A coordinate sum is absent exactly when there are no points. The value of each sum is stated by `Centroid.AccumulateSums`. |
| Centroid.AccumulateSums | src/centroid.rs:52-58 | The one-pass reduction counts every point. Each coordinate sum is absent for an empty input and otherwise equals the sum of that coordinate over all points. |
| Centroid.Divide | src/centroid.rs:60-65 | A sum divided by the point count is NaN exactly when the count is zero. Otherwise the quotient times the count gives back the sum. |
| Centroid.CentroidOfPointsNa | src/centroid.rs:46-68 | The result is always `Some`. It is NaN exactly for an empty input. Otherwise each coordinate is that coordinate's sum over the points divided by their number. |
| Centroid.CentroidIsMean | src/centroid.rs:46-68 | For a non-empty input the centroid equals the reference mean (1/n) times the sum of the points. |
| Centroid.CentroidOfSingleton | src/centroid.rs:46-68 | The centroid of one point is that point. |
| Centroid.CentroidCoordinateIndependent | src/centroid.rs:54-65 | Two inputs of equal length that agree on one axis have centroids that agree on that axis. Either both are NaN or neither is. |
| Centroid.CentroidOfPoints | src/centroid.rs:36-43 | The array form is always `Some` and NaN exactly for an empty input. Otherwise entry a is the sum of entry a over the arrays divided by their number. |
| Centroid.ArrayFormAgrees | src/centroid.rs:37-43 | The array-form centroid of the arrays of some points is the array of their point-form centroid. |
| Centroid.Shift | src/centroid.rs:30-32 | One residual per point, in order. Adding the centroid back to residual i gives point i. src/kabsch.rs:31-38 uses the same step. |
| Centroid.ShiftCentroidToOriginNa | src/centroid.rs:19-34 | The result is always `Some`, with one output per input in input order. Each output is the input point minus the mean of all inputs. |
| Centroid.ShiftCentroidToOrigin | src/centroid.rs:9-17 | The array form is `Some` exactly when the point form is. Then it has one array per input, each the array of the input point minus the mean. |
| Centroid.ShiftedSumsToZero | src/centroid.rs:30-32 | Points shifted by their own mean sum to the zero vector. |
| Centroid.CentroidOfShiftedIsOrigin | src/centroid.rs:75-88 | For a non-empty input the centroid of the shifted points is exactly the origin. This is the property the unit test checks approximately. |
| Kabsch.Unzip | src/kabsch.rs:24 | Splitting the pairs keeps the length and order. Pair i is (source i, target i). |
| Kabsch.Zip | src/kabsch.rs:24 | Pairs up position i of the sources with position i of the targets. `Kabsch.UnzipZip` proves it inverse to `Unzip`. |
| Kabsch.UnzipZip | src/kabsch.rs:24 | Splitting and zipping are inverse to each other in both directions. |
| Kabsch.ResidualsSumToZero | src/kabsch.rs:26-38 | For a non-empty input, the source points minus their centroid sum to zero, and so do the target points minus theirs. |
| Kabsch.CrossCovariance | src/kabsch.rs:40-42 | `from_columns(a) * from_columns(b)^T` equals the independently defined sum over k of the outer products a[k] b[k]^T. Its entry (i, j) is the sum of a[k][i] * b[k][j], with the sources on the row axis. |
| Kabsch.CrossCovarianceSwap | src/kabsch.rs:40-42 | Swapping the source and target residuals transposes the covariance matrix. |
| Kabsch.Signum | src/kabsch.rs:49 | The sign is +1 or -1, never 0. It is negative exactly when the determinant is negative. |
| Kabsch.ProductDet | src/kabsch.rs:48 | For orthogonal U and V^T, det(U V^T) is +1 or -1. |
| Kabsch.CorrectedRotation | src/kabsch.rs:48-51 | For orthogonal U and V^T, U diag(1, 1, sign det(U V^T)) V^T is orthogonal with determinant +1. When det(U V^T) >= 0 the correction leaves U V^T unchanged. |
| Kabsch.CorrectedRotationDet | src/kabsch.rs:51 | det(U diag(1, 1, d) V^T) = det(U V^T) * d. |
| Kabsch.ColumnMajorSlice | src/kabsch.rs:53-56 | `as_slice` yields nine entries, with entry (i, j) at position 3j + i. |
| Kabsch.FromRowSlice | src/kabsch.rs:53-56 | `from_row_slice_generic` puts position 3i + j at entry (i, j). |
| Kabsch.ReinterpretIsTranspose | src/kabsch.rs:53-56 | Reading the column-major storage in row-major order yields the transpose. |
| Kabsch.Translation | src/kabsch.rs:60-61 | The translation is a number exactly when both centroids are. Then rotating the source centroid and adding the translation gives the target centroid. |
| Kabsch.Kabsch | src/kabsch.rs:17-68 | The call panics exactly for an empty input. Given an SVD whose U and V^T are orthogonal, it otherwise returns `Some` isometry with these properties. The rotation is proper. Its transpose is the sign-corrected U V^T from the decomposition of the centred cross-covariance, with sources on the row axis and targets on the column axis. The isometry maps the source mean exactly onto the target mean. |
| Kabsch.TransformIsRigid | src/kabsch.rs:58-66 | `isometry * point` with an orthogonal rotation keeps the distance between any two points. |
| Kabsch.TransformDifference | src/kabsch.rs:60-66 | The translation cancels: the difference of two images is the rotated difference of the points. |
| Geometry.DetMul | src/kabsch.rs:48 | det(A B) = det A * det B. |
| Geometry.DetTranspose | src/kabsch.rs:56 | det(M^T) = det M. |
| Geometry.OrthogonalDet | src/kabsch.rs:48-49 | An orthogonal matrix has determinant +1 or -1. |
| Geometry.OrthogonalMul | src/kabsch.rs:51 | A product of orthogonal matrices is orthogonal. |
| Geometry.OrthogonalLeftInverse | src/kabsch.rs:53-56 | If M M^T = I then also M^T M = I, so the transpose of a rotation is its inverse. The proof goes through the adjugate matrix. |
| Geometry.OrthogonalTranspose | src/kabsch.rs:53-56 | The transpose of an orthogonal matrix is orthogonal. |
| Geometry.OrthogonalKeepsLength | src/kabsch.rs:58 | An orthogonal matrix keeps the length of every vector. |
| Geometry.DiagonalSignOrthogonal | src/kabsch.rs:51 | For d = +-1, diag(1, 1, d) is orthogonal with determinant d. |

## Left out

- `SVD::new` (src/kabsch.rs:44-46) is a numerical algorithm of nalgebra. The model takes the decomposition as a parameter `decompose` that must return orthogonal U and V^T and non-negative singular values that reproduce the matrix. The `unwrap` of `u` and `v_t` cannot fail because both are requested.
- `UnitQuaternion::from_matrix` (src/kabsch.rs:58): the model keeps the rotation as a matrix, and `Kabsch.Isometry` pairs it with the translation. The conversion is an approximation that nalgebra iterates numerically.
- Kabsch.Kabsch: an empty input panics in nalgebra's `Matrix3xX::from_columns` (src/kabsch.rs:40). The model represents this as the `Panics` outcome and promises nothing more for that case.
- Kabsch.Kabsch: the model does not prove that the rotation minimises the squared distance between the rotated sources and the targets. That needs the theory of the singular value decomposition beyond its defining equations. The unit test in src/kabsch.rs:77-93 draws random points and depends on that optimality.
- Floating point is modelled as exact real arithmetic. Rounding, the order of accumulation, and infinities are not modelled. Only the NaN that an empty input produces in the centroid is kept, as the `NaN` marker. `Kabsch.Signum` maps 0 to +1, as `Float::signum` does for +0.0. The value -1 that it gives for -0.0 is not modelled.
- Rust genericity, the `Borrow` wrappers, and the laziness of the returned iterators are not modelled. A sequence stands for an iterator that is fully consumed.
- `T::from(num_points).unwrap()` (src/centroid.rs:60) is modelled as the exact conversion of the count to a real. The rounding of counts above 2^53 in `f64` is not modelled.
- src/intersection.rs, src/types.rs and the module list in src/lib.rs are not part of this model.
