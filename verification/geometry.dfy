/**
  Fixed-size linear algebra over exact reals: 3-vectors, 3x3 matrices, the
  determinant and orthogonality. This stands in for the parts of the external
  matrix library that the centroid and alignment code use; floating-point
  rounding is not modelled.
 */
module Geometry {

  /** A coordinate axis: 0 is x, 1 is y, 2 is z. */
  type Axis = a: nat | a < 3

  datatype Vec3 = Vec3(x: real, y: real, z: real)

  /** Points and displacement vectors share one representation. */
  type Point3 = Vec3

  /** The array form `[T; 3]` of a point. */
  type Array3 = a: seq<real> | |a| == 3 witness [0.0, 0.0, 0.0]

  /** A 3x3 matrix stored by rows. */
  datatype Matrix3 = Matrix3(r0: Vec3, r1: Vec3, r2: Vec3)

  // ---------------------------------------------------------------------------
  // Vectors

  const Origin: Vec3 := Vec3(0.0, 0.0, 0.0)

  function Coord(v: Vec3, a: Axis): real {
    if a == 0 then v.x else if a == 1 then v.y else v.z
  }

  function Add(u: Vec3, v: Vec3): Vec3 {
    Vec3(u.x + v.x, u.y + v.y, u.z + v.z)
  }

  function Sub(u: Vec3, v: Vec3): Vec3 {
    Vec3(u.x - v.x, u.y - v.y, u.z - v.z)
  }

  function Scale(s: real, v: Vec3): Vec3 {
    Vec3(s * v.x, s * v.y, s * v.z)
  }

  function Dot(u: Vec3, v: Vec3): real {
    u.x * v.x + u.y * v.y + u.z * v.z
  }

  function Cross(u: Vec3, v: Vec3): Vec3 {
    Vec3(u.y * v.z - u.z * v.y, u.z * v.x - u.x * v.z, u.x * v.y - u.y * v.x)
  }

  /** The scalar triple product u . (v x w), the determinant of the rows u, v, w. */
  function Triple(u: Vec3, v: Vec3, w: Vec3): real {
    Dot(u, Cross(v, w))
  }

  /** `Point3::from([T; 3])`. */
  function FromArray(a: Array3): Vec3 {
    Vec3(a[0], a[1], a[2])
  }

  /** `<[T; 3]>::from(Point3)`. */
  function ToArray(v: Vec3): (a: Array3)
    ensures forall i: Axis :: a[i] == Coord(v, i)
  {
    [v.x, v.y, v.z]
  }

  lemma CoordOfScale(s: real, v: Vec3, a: Axis)
    ensures Coord(Scale(s, v), a) == s * Coord(v, a)
  {
  }

  // ---------------------------------------------------------------------------
  // Matrices

  const Identity: Matrix3 := Matrix3(Vec3(1.0, 0.0, 0.0), Vec3(0.0, 1.0, 0.0), Vec3(0.0, 0.0, 1.0))

  const ZeroMatrix: Matrix3 := Matrix3(Origin, Origin, Origin)

  function Row(m: Matrix3, i: Axis): Vec3 {
    if i == 0 then m.r0 else if i == 1 then m.r1 else m.r2
  }

  function Col(m: Matrix3, j: Axis): Vec3 {
    Vec3(Coord(m.r0, j), Coord(m.r1, j), Coord(m.r2, j))
  }

  /** Entry (i, j): row i, column j. */
  function Get(m: Matrix3, i: Axis, j: Axis): real {
    Coord(Row(m, i), j)
  }

  function Transpose(m: Matrix3): (t: Matrix3)
    ensures forall i: Axis, j: Axis :: Get(t, i, j) == Get(m, j, i)
  {
    Matrix3(Col(m, 0), Col(m, 1), Col(m, 2))
  }

  /** `Matrix3::from_diagonal`. */
  function Diagonal(d: Vec3): Matrix3 {
    Matrix3(Vec3(d.x, 0.0, 0.0), Vec3(0.0, d.y, 0.0), Vec3(0.0, 0.0, d.z))
  }

  function MatAdd(a: Matrix3, b: Matrix3): Matrix3 {
    Matrix3(Add(a.r0, b.r0), Add(a.r1, b.r1), Add(a.r2, b.r2))
  }

  /** The row vector v times b, the combination v.x * b.r0 + v.y * b.r1 + v.z * b.r2. */
  function RowTimes(v: Vec3, b: Matrix3): Vec3 {
    Vec3(Dot(v, Col(b, 0)), Dot(v, Col(b, 1)), Dot(v, Col(b, 2)))
  }

  function Mul(a: Matrix3, b: Matrix3): Matrix3 {
    Matrix3(RowTimes(a.r0, b), RowTimes(a.r1, b), RowTimes(a.r2, b))
  }

  /** The matrix m applied to the column vector v. */
  function MulVec(m: Matrix3, v: Vec3): Vec3 {
    Vec3(Dot(m.r0, v), Dot(m.r1, v), Dot(m.r2, v))
  }

  /** The outer product p q^T: entry (i, j) is p[i] * q[j]. */
  function Outer(p: Vec3, q: Vec3): Matrix3 {
    Matrix3(Scale(p.x, q), Scale(p.y, q), Scale(p.z, q))
  }

  lemma GetMatAdd(a: Matrix3, b: Matrix3, i: Axis, j: Axis)
    ensures Get(MatAdd(a, b), i, j) == Get(a, i, j) + Get(b, i, j)
  {
  }

  lemma GetOuter(p: Vec3, q: Vec3, i: Axis, j: Axis)
    ensures Get(Outer(p, q), i, j) == Coord(p, i) * Coord(q, j)
  {
    CoordOfScale(Coord(p, i), q, j);
  }

  /** Cofactor expansion along the first row. */
  function Det(m: Matrix3): real {
    m.r0.x * (m.r1.y * m.r2.z - m.r1.z * m.r2.y)
    - m.r0.y * (m.r1.x * m.r2.z - m.r1.z * m.r2.x)
    + m.r0.z * (m.r1.x * m.r2.y - m.r1.y * m.r2.x)
  }

  /** Orthonormal rows: M M^T = I. That M^T M = I follows is OrthogonalLeftInverse. */
  ghost predicate Orthogonal(m: Matrix3) {
    Mul(m, Transpose(m)) == Identity
  }

  /** A proper rotation: orthogonal with determinant +1 (no reflection). */
  ghost predicate ProperRotation(m: Matrix3) {
    Orthogonal(m) && Det(m) == 1.0
  }

  // ---------------------------------------------------------------------------
  // Matrix algebra

  lemma RowTimesAssoc(v: Vec3, b: Matrix3, c: Matrix3)
    ensures RowTimes(RowTimes(v, b), c) == RowTimes(v, Mul(b, c))
  {
  }

  lemma MulAssoc(a: Matrix3, b: Matrix3, c: Matrix3)
    ensures Mul(Mul(a, b), c) == Mul(a, Mul(b, c))
  {
    RowTimesAssoc(a.r0, b, c);
    RowTimesAssoc(a.r1, b, c);
    RowTimesAssoc(a.r2, b, c);
  }

  lemma MulIdentity(a: Matrix3)
    ensures Mul(a, Identity) == a && Mul(Identity, a) == a
  {
  }

  lemma TransposeMul(a: Matrix3, b: Matrix3)
    ensures Transpose(Mul(a, b)) == Mul(Transpose(b), Transpose(a))
  {
  }

  lemma TransposeTranspose(m: Matrix3)
    ensures Transpose(Transpose(m)) == m
  {
  }

  lemma DetTranspose(m: Matrix3)
    ensures Det(Transpose(m)) == Det(m)
  {
  }

  lemma DetIsTriple(m: Matrix3)
    ensures Det(m) == Triple(m.r0, m.r1, m.r2)
  {
  }

  lemma TripleCyclic(u: Vec3, v: Vec3, w: Vec3)
    ensures Triple(u, v, w) == Triple(v, w, u)
  {
  }

  /** The triple product is linear in its first argument. */
  lemma TripleLinear1(c: Vec3, b: Matrix3, p: Vec3, q: Vec3)
    ensures Triple(RowTimes(c, b), p, q)
         == c.x * Triple(b.r0, p, q) + c.y * Triple(b.r1, p, q) + c.z * Triple(b.r2, p, q)
  {
  }

  /** The triple product is linear in its second argument. */
  lemma TripleLinear2(e: Vec3, c: Vec3, b: Matrix3, q: Vec3)
    ensures Triple(e, RowTimes(c, b), q)
         == c.x * Triple(e, b.r0, q) + c.y * Triple(e, b.r1, q) + c.z * Triple(e, b.r2, q)
  {
    TripleCyclic(e, RowTimes(c, b), q);
    TripleLinear1(c, b, q, e);
    TripleCyclic(e, b.r0, q);
    TripleCyclic(e, b.r1, q);
    TripleCyclic(e, b.r2, q);
  }

  /** The triple product is linear in its third argument. */
  lemma TripleLinear3(e: Vec3, p: Vec3, c: Vec3, b: Matrix3)
    ensures Triple(e, p, RowTimes(c, b))
         == c.x * Triple(e, p, b.r0) + c.y * Triple(e, p, b.r1) + c.z * Triple(e, p, b.r2)
  {
    TripleCyclic(RowTimes(c, b), e, p);
    TripleLinear1(c, b, e, p);
    TripleCyclic(b.r0, e, p);
    TripleCyclic(b.r1, e, p);
    TripleCyclic(b.r2, e, p);
  }

  lemma TripleSwap(u: Vec3, v: Vec3, w: Vec3)
    ensures Triple(u, w, v) == -Triple(u, v, w)
  {
  }

  lemma TripleRepeated(u: Vec3, v: Vec3)
    ensures Triple(u, v, v) == 0.0 && Triple(u, u, v) == 0.0 && Triple(u, v, u) == 0.0
  {
  }

  /** The triple products of the rows of b: +-Det(b) for permutations, 0 with a repeated row. */
  lemma TripleOfRows(b: Matrix3)
    ensures Triple(b.r0, b.r1, b.r2) == Det(b)
    ensures Triple(b.r1, b.r2, b.r0) == Det(b)
    ensures Triple(b.r2, b.r0, b.r1) == Det(b)
    ensures Triple(b.r0, b.r2, b.r1) == -Det(b)
    ensures Triple(b.r1, b.r0, b.r2) == -Det(b)
    ensures Triple(b.r2, b.r1, b.r0) == -Det(b)
    ensures forall u, v :: Triple(u, v, v) == 0.0
    ensures forall u, v :: Triple(u, u, v) == 0.0
    ensures forall u, v :: Triple(u, v, u) == 0.0
  {
    DetIsTriple(b);
    TripleCyclic(b.r0, b.r1, b.r2);
    TripleCyclic(b.r1, b.r2, b.r0);
    TripleSwap(b.r0, b.r1, b.r2);
    TripleSwap(b.r1, b.r2, b.r0);
    TripleSwap(b.r2, b.r0, b.r1);
    forall u, v
      ensures Triple(u, v, v) == 0.0 && Triple(u, u, v) == 0.0 && Triple(u, v, u) == 0.0
    {
      TripleRepeated(u, v);
    }
  }

  /** Expands the last two rows of a product p b, q b over the rows of b. */
  lemma ExpandTail(e: Vec3, p: Vec3, q: Vec3, b: Matrix3)
    ensures Triple(e, RowTimes(p, b), RowTimes(q, b))
         == p.x * (q.x * Triple(e, b.r0, b.r0) + q.y * Triple(e, b.r0, b.r1) + q.z * Triple(e, b.r0, b.r2))
          + p.y * (q.x * Triple(e, b.r1, b.r0) + q.y * Triple(e, b.r1, b.r1) + q.z * Triple(e, b.r1, b.r2))
          + p.z * (q.x * Triple(e, b.r2, b.r0) + q.y * Triple(e, b.r2, b.r1) + q.z * Triple(e, b.r2, b.r2))
  {
    TripleLinear2(e, p, b, RowTimes(q, b));
    TripleLinear3(e, b.r0, q, b);
    TripleLinear3(e, b.r1, q, b);
    TripleLinear3(e, b.r2, q, b);
  }

  /** The determinant is multiplicative. */
  lemma DetMul(a: Matrix3, b: Matrix3)
    ensures Det(Mul(a, b)) == Det(a) * Det(b)
  {
    var d := Det(b);
    var (p, q) := (a.r1, a.r2);
    var (v, w) := (RowTimes(p, b), RowTimes(q, b));
    TripleLinear1(a.r0, b, v, w);
    ExpandTail(b.r0, p, q, b);
    ExpandTail(b.r1, p, q, b);
    ExpandTail(b.r2, p, q, b);
    TripleOfRows(b);
    assert Triple(b.r0, v, w) == (p.y * q.z - p.z * q.y) * d;
    assert Triple(b.r1, v, w) == (p.z * q.x - p.x * q.z) * d;
    assert Triple(b.r2, v, w) == (p.x * q.y - p.y * q.x) * d;
    DetIsTriple(Mul(a, b));
    DetIsTriple(a);
    calc {
      Det(Mul(a, b));
      a.r0.x * ((p.y * q.z - p.z * q.y) * d) + a.r0.y * ((p.z * q.x - p.x * q.z) * d)
        + a.r0.z * ((p.x * q.y - p.y * q.x) * d);
      (a.r0.x * (p.y * q.z - p.z * q.y) + a.r0.y * (p.z * q.x - p.x * q.z)
        + a.r0.z * (p.x * q.y - p.y * q.x)) * d;
      Det(a) * d;
    }
  }

  lemma DetDiagonal(d: Vec3)
    ensures Det(Diagonal(d)) == d.x * d.y * d.z
  {
  }

  lemma DetMul3(a: Matrix3, b: Matrix3, c: Matrix3)
    ensures Det(Mul(Mul(a, b), c)) == (Det(a) * Det(b)) * Det(c)
  {
    DetMul(Mul(a, b), c);
    DetMul(a, b);
  }

  /** An orthogonal matrix has determinant +1 or -1. */
  lemma OrthogonalDet(m: Matrix3)
    requires Orthogonal(m)
    ensures Det(m) == 1.0 || Det(m) == -1.0
  {
    DetMul(m, Transpose(m));
    DetTranspose(m);
    UnitSquare(Det(m));
  }

  lemma UnitSquare(x: real)
    requires x * x == 1.0
    ensures x == 1.0 || x == -1.0
  {
    assert (x - 1.0) * (x + 1.0) == 0.0;
  }

  lemma OrthogonalMul(a: Matrix3, b: Matrix3)
    requires Orthogonal(a) && Orthogonal(b)
    ensures Orthogonal(Mul(a, b))
  {
    var (at, bt) := (Transpose(a), Transpose(b));
    TransposeMul(a, b);
    calc {
      Mul(Mul(a, b), Mul(bt, at));
      { MulAssoc(a, b, Mul(bt, at)); }
      Mul(a, Mul(b, Mul(bt, at)));
      { MulAssoc(b, bt, at); }
      Mul(a, Mul(Mul(b, bt), at));
      { MulIdentity(at); }
      Mul(a, at);
      Identity;
    }
  }

  /** s times every entry of m. */
  function ScaleMat(s: real, m: Matrix3): Matrix3 {
    Matrix3(Scale(s, m.r0), Scale(s, m.r1), Scale(s, m.r2))
  }

  /** The cofactor matrix: row i is the cross product of the other two rows, in cyclic order. */
  function Cofactors(m: Matrix3): Matrix3 {
    Matrix3(Cross(m.r1, m.r2), Cross(m.r2, m.r0), Cross(m.r0, m.r1))
  }

  /** v times a transposed matrix: the dot products of v with the rows. */
  lemma RowTimesTranspose(v: Vec3, c: Matrix3)
    ensures RowTimes(v, Transpose(c)) == Vec3(Dot(v, c.r0), Dot(v, c.r1), Dot(v, c.r2))
  {
  }

  /** M adj(M) = det(M) I, where adj(M) is the transposed cofactor matrix. */
  lemma AdjugateRight(m: Matrix3)
    ensures Mul(m, Transpose(Cofactors(m))) == ScaleMat(Det(m), Identity)
  {
    var (c, e) := (Cofactors(m), Det(m));
    RowTimesTranspose(m.r0, c);
    RowTimesTranspose(m.r1, c);
    RowTimesTranspose(m.r2, c);
    TripleOfRows(m);
    TripleRepeated(m.r0, m.r1);
    TripleRepeated(m.r0, m.r2);
    TripleRepeated(m.r1, m.r2);
    TripleRepeated(m.r1, m.r0);
    TripleRepeated(m.r2, m.r0);
    TripleRepeated(m.r2, m.r1);
    assert ScaleMat(e, Identity) == Matrix3(Vec3(e, 0.0, 0.0), Vec3(0.0, e, 0.0), Vec3(0.0, 0.0, e));
  }

  /** adj(M^T)^T M = det(M) I: a left inverse up to the factor det(M). */
  lemma AdjugateLeft(m: Matrix3)
    ensures Mul(Cofactors(Transpose(m)), m) == ScaleMat(Det(m), Identity)
  {
    var t := Transpose(m);
    var d := Cofactors(t);
    AdjugateRight(t);
    DetTranspose(m);
    TransposeMul(t, Transpose(d));
    TransposeTranspose(m);
    TransposeTranspose(d);
    assert Transpose(ScaleMat(Det(m), Identity)) == ScaleMat(Det(m), Identity);
  }

  lemma RowTimesScale(s: real, v: Vec3, b: Matrix3)
    ensures RowTimes(Scale(s, v), b) == Scale(s, RowTimes(v, b))
  {
  }

  lemma ScaleMul(s: real, a: Matrix3, b: Matrix3)
    ensures Mul(ScaleMat(s, a), b) == ScaleMat(s, Mul(a, b))
  {
    RowTimesScale(s, a.r0, b);
    RowTimesScale(s, a.r1, b);
    RowTimesScale(s, a.r2, b);
  }

  lemma ScaleIdentityMul(s: real, a: Matrix3)
    ensures Mul(ScaleMat(s, Identity), a) == ScaleMat(s, a)
  {
    ScaleMul(s, Identity, a);
    MulIdentity(a);
  }

  lemma CancelFactor(s: real, x: real, y: real)
    requires s != 0.0 && s * x == s * y
    ensures x == y
  {
    assert s * (x - y) == 0.0;
  }

  lemma ScaleCancelVec(s: real, u: Vec3, v: Vec3)
    requires s != 0.0 && Scale(s, u) == Scale(s, v)
    ensures u == v
  {
    assert s * u.x == s * v.x && s * u.y == s * v.y && s * u.z == s * v.z;
    CancelFactor(s, u.x, v.x);
    CancelFactor(s, u.y, v.y);
    CancelFactor(s, u.z, v.z);
  }

  lemma ScaleCancel(s: real, a: Matrix3, b: Matrix3)
    requires s != 0.0 && ScaleMat(s, a) == ScaleMat(s, b)
    ensures a == b
  {
    ScaleCancelVec(s, a.r0, b.r0);
    ScaleCancelVec(s, a.r1, b.r1);
    ScaleCancelVec(s, a.r2, b.r2);
  }

  /** With a right inverse T, adj(M^T)^T = det(M) T. */
  lemma CofactorsOfRightInverse(m: Matrix3, t: Matrix3)
    requires Mul(m, t) == Identity
    ensures Cofactors(Transpose(m)) == ScaleMat(Det(m), t)
  {
    var (d, e) := (Cofactors(Transpose(m)), Det(m));
    AdjugateLeft(m);
    calc {
      d;
      { MulIdentity(d); }
      Mul(d, Mul(m, t));
      { MulAssoc(d, m, t); }
      Mul(ScaleMat(e, Identity), t);
      { ScaleIdentityMul(e, t); }
      ScaleMat(e, t);
    }
  }

  /**
    A right inverse of a 3x3 matrix is also a left inverse: M M^T = I gives
    M^T M = I. With D = adj(M^T)^T, D M = det(M) I, so D = D M M^T = det(M) M^T,
    and det(M) M^T M = D M = det(M) I with det(M) = +-1.
   */
  lemma OrthogonalLeftInverse(m: Matrix3)
    requires Orthogonal(m)
    ensures Mul(Transpose(m), m) == Identity
  {
    var t := Transpose(m);
    OrthogonalDet(m);
    CofactorsOfRightInverse(m, t);
    AdjugateLeft(m);
    ScaleMul(Det(m), t, m);
    ScaleCancel(Det(m), Mul(t, m), Identity);
  }

  lemma OrthogonalTranspose(m: Matrix3)
    requires Orthogonal(m)
    ensures Orthogonal(Transpose(m))
  {
    TransposeTranspose(m);
    OrthogonalLeftInverse(m);
  }

  /** v . (M^T M w) written out: the dot product of the images M v and M w. */
  lemma DotOfImages(m: Matrix3, v: Vec3, w: Vec3)
    ensures Dot(MulVec(m, v), MulVec(m, w)) == Dot(v, MulVec(Mul(Transpose(m), m), w))
  {
    hide *;
    MulVecMul(Transpose(m), m, w);
    DotTranspose(m, v, MulVec(m, w));
  }

  /** (v b) . w = v . (b w). */
  lemma RowTimesDot(v: Vec3, b: Matrix3, w: Vec3)
    ensures Dot(RowTimes(v, b), w) == Dot(v, MulVec(b, w))
  {
  }

  lemma MulVecMul(a: Matrix3, b: Matrix3, w: Vec3)
    ensures MulVec(Mul(a, b), w) == MulVec(a, MulVec(b, w))
  {
    RowTimesDot(a.r0, b, w);
    RowTimesDot(a.r1, b, w);
    RowTimesDot(a.r2, b, w);
  }

  /** The transpose is the adjoint: v . (M^T u) = (M v) . u. */
  lemma DotTranspose(m: Matrix3, v: Vec3, u: Vec3)
    ensures Dot(v, MulVec(Transpose(m), u)) == Dot(MulVec(m, v), u)
  {
  }

  /** An orthogonal matrix keeps the length of every vector. */
  lemma OrthogonalKeepsLength(m: Matrix3, v: Vec3)
    requires Orthogonal(m)
    ensures Dot(MulVec(m, v), MulVec(m, v)) == Dot(v, v)
  {
    DotOfImages(m, v, v);
    OrthogonalLeftInverse(m);
    assert MulVec(Identity, v) == v;
  }

  lemma IdentityOrthogonal()
    ensures Orthogonal(Identity)
  {
    var r := Diagonal(Vec3(1.0, 1.0, 1.0));
    assert Transpose(r) == r;
    assert RowTimes(r.r0, r) == r.r0;
    assert RowTimes(r.r1, r) == r.r1;
    assert RowTimes(r.r2, r) == r.r2;
    assert r == Identity;
  }

  /** The reflection diag(1, 1, -1) is orthogonal. */
  lemma ReflectionOrthogonal()
    ensures Orthogonal(Diagonal(Vec3(1.0, 1.0, -1.0)))
  {
    var r := Diagonal(Vec3(1.0, 1.0, -1.0));
    assert r == Matrix3(Vec3(1.0, 0.0, 0.0), Vec3(0.0, 1.0, 0.0), Vec3(0.0, 0.0, -1.0));
    assert Transpose(r) == r;
    assert Mul(r, r) == Identity;
  }

  /** diag(1, 1, d) for d = +-1 is its own transpose and its own inverse. */
  lemma DiagonalSignOrthogonal(d: real)
    requires d == 1.0 || d == -1.0
    ensures Orthogonal(Diagonal(Vec3(1.0, 1.0, d)))
    ensures Det(Diagonal(Vec3(1.0, 1.0, d))) == d
  {
    DetDiagonal(Vec3(1.0, 1.0, d));
    if d == 1.0 {
      assert Diagonal(Vec3(1.0, 1.0, d)) == Identity;
      IdentityOrthogonal();
    } else {
      ReflectionOrthogonal();
    }
  }
}
