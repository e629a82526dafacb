/**
 * The hand-written vector and matrix library (src/util/3DMath.h, 3DMath.cpp),
 * with `float` idealised as exact `real`.
 *
 * A Matrix4x4 stores its sixteen entries column by column: the named field
 * `mRC` (row R, column C, both 1-based) and the array view `m[4*(C-1)+(R-1)]`
 * are the same storage. The datatype below lists its fields in exactly that
 * storage order, which is also the order of the 16-argument constructor.
 * `At(A, r, c)` reads row r, column c (0-based) through the named fields.
 */
module Math3D {

  import opened Wrappers

  // ---------------------------------------------------------------- Vec4

  /** A homogeneous 4-vector. */
  datatype Vec4 = Vec4(x: real, y: real, z: real, w: real)

  /** `Vec4()`: the origin, with the default w of 1. */
  function Origin(): Vec4 {
    Vec4(0.0, 0.0, 0.0, 1.0)
  }

  /** `Vec4(X, Y, Z)`: w takes its default of 1. */
  function Point(x: real, y: real, z: real): Vec4 {
    Vec4(x, y, z, 1.0)
  }

  /** Component i (0 = x, 1 = y, 2 = z, 3 = w). */
  function Comp(v: Vec4, i: nat): real
    requires i < 4
  {
    if i == 0 then v.x else if i == 1 then v.y else if i == 2 then v.z else v.w
  }

  /** `Dot`: the 3-D dot product; w takes no part. */
  function Dot(a: Vec4, b: Vec4): real {
    a.x * b.x + a.y * b.y + a.z * b.z
  }

  /** `Cross`: the 3-D cross product, with w forced to 1. */
  function Cross(a: Vec4, b: Vec4): (r: Vec4)
    ensures r.w == 1.0
    ensures Dot(r, a) == 0.0 && Dot(r, b) == 0.0
  {
    Vec4(a.y * b.z - a.z * b.y, -1.0 * a.x * b.z + a.z * b.x, a.x * b.y - a.y * b.x, 1.0)
  }

  /** Binary `+`: adds x, y, z and keeps the left operand's w. */
  function Vec4Add(a: Vec4, b: Vec4): (r: Vec4)
    ensures r.w == a.w
    ensures forall i :: 0 <= i < 3 ==> Comp(r, i) == Comp(a, i) + Comp(b, i)
  {
    Vec4(a.x + b.x, a.y + b.y, a.z + b.z, a.w)
  }

  /** Binary `-` (`Subtract`): subtracts x, y, z and keeps the left operand's w. */
  function Vec4Sub(a: Vec4, b: Vec4): (r: Vec4)
    ensures r.w == a.w
    ensures forall i :: 0 <= i < 3 ==> Comp(r, i) == Comp(a, i) - Comp(b, i)
  {
    Vec4(a.x - b.x, a.y - b.y, a.z - b.z, a.w)
  }

  /** `v * Scalar`: scales x, y, z and keeps w. */
  function Vec4Scale(a: Vec4, s: real): (r: Vec4)
    ensures r.w == a.w
    ensures forall i :: 0 <= i < 3 ==> Comp(r, i) == Comp(a, i) * s
  {
    Vec4(a.x * s, a.y * s, a.z * s, a.w)
  }

  /**
   * `+=`: the value of the left operand after the in-place update.
   * x, y, z grow by b's, w is not touched.
   */
  function Vec4AddAssign(a: Vec4, b: Vec4): (r: Vec4)
    ensures r.w == a.w
    ensures forall i :: 0 <= i < 3 ==> Comp(r, i) == Comp(a, i) + Comp(b, i)
  {
    a.(x := a.x + b.x, y := a.y + b.y, z := a.z + b.z)
  }

  /** `/=`: the value of the left operand after the update; unlike `+=`, it divides w too. */
  function Vec4DivAssign(a: Vec4, s: real): (r: Vec4)
    requires s != 0.0
    ensures forall i :: 0 <= i < 4 ==> Comp(r, i) * s == Comp(a, i)
  {
    a.(x := a.x / s, y := a.y / s, z := a.z / s, w := a.w / s)
  }

  // ----------------------------------------------------------- Matrix4x4

  /** A 4x4 matrix; fields in storage (column-major) order. */
  datatype Matrix4x4 = Matrix4x4(
    m11: real, m21: real, m31: real, m41: real,   // column 1
    m12: real, m22: real, m32: real, m42: real,   // column 2
    m13: real, m23: real, m33: real, m43: real,   // column 3
    m14: real, m24: real, m34: real, m44: real)   // column 4

  /** `Matrix4x4()`: every entry 0. */
  function Zero(): Matrix4x4 {
    Matrix4x4(0.0, 0.0, 0.0, 0.0, 0.0, 0.0, 0.0, 0.0, 0.0, 0.0, 0.0, 0.0, 0.0, 0.0, 0.0, 0.0)
  }

  /** The constant `Math::Identity`, written with the constructor's argument order. */
  function Identity(): Matrix4x4 {
    Matrix4x4(1.0, 0.0, 0.0, 0.0,
              0.0, 1.0, 0.0, 0.0,
              0.0, 0.0, 1.0, 0.0,
              0.0, 0.0, 0.0, 1.0)
  }

  /** Entry at row r, column c (0-based), read through the named field `m(r+1)(c+1)`. */
  function At(A: Matrix4x4, r: nat, c: nat): real
    requires r < 4 && c < 4
  {
    if r == 0 then
      (if c == 0 then A.m11 else if c == 1 then A.m12 else if c == 2 then A.m13 else A.m14)
    else if r == 1 then
      (if c == 0 then A.m21 else if c == 1 then A.m22 else if c == 2 then A.m23 else A.m24)
    else if r == 2 then
      (if c == 0 then A.m31 else if c == 1 then A.m32 else if c == 2 then A.m33 else A.m34)
    else
      (if c == 0 then A.m41 else if c == 1 then A.m42 else if c == 2 then A.m43 else A.m44)
  }

  /**
   * The union's array view `m[16]`. Its element 4*c + r is the named field
   * of row r and column c: the layout is column-major.
   */
  function Elems(A: Matrix4x4): (m: seq<real>)
    ensures |m| == 16
    ensures forall r, c :: 0 <= r < 4 && 0 <= c < 4 ==> m[4 * c + r] == At(A, r, c)
  {
    [A.m11, A.m21, A.m31, A.m41, A.m12, A.m22, A.m32, A.m42,
     A.m13, A.m23, A.m33, A.m43, A.m14, A.m24, A.m34, A.m44]
  }

  /** `Matrix4x4(float m[])`: the array constructor; its result's array view is the input. */
  function FromArray(m: seq<real>): (A: Matrix4x4)
    requires |m| == 16
    ensures Elems(A) == m
    ensures forall r, c :: 0 <= r < 4 && 0 <= c < 4 ==> At(A, r, c) == m[4 * c + r]
  {
    Matrix4x4(m[0], m[1], m[2], m[3], m[4], m[5], m[6], m[7],
              m[8], m[9], m[10], m[11], m[12], m[13], m[14], m[15])
  }

  /** Row r of A dotted with column c of B: the textbook product entry. */
  function ProductEntry(A: Matrix4x4, B: Matrix4x4, r: nat, c: nat): real
    requires r < 4 && c < 4
  {
    At(A, r, 0) * At(B, 0, c) + At(A, r, 1) * At(B, 1, c) + At(A, r, 2) * At(B, 2, c) + At(A, r, 3) * At(B, 3, c)
  }

  /** `Mult` (and `operator*`, `Multiply`): the matrix product A x B. */
  function Mult(A: Matrix4x4, B: Matrix4x4): Matrix4x4 {
    Matrix4x4(
      A.m11 * B.m11 + A.m12 * B.m21 + A.m13 * B.m31 + A.m14 * B.m41,
      A.m21 * B.m11 + A.m22 * B.m21 + A.m23 * B.m31 + A.m24 * B.m41,
      A.m31 * B.m11 + A.m32 * B.m21 + A.m33 * B.m31 + A.m34 * B.m41,
      A.m41 * B.m11 + A.m42 * B.m21 + A.m43 * B.m31 + A.m44 * B.m41,
      A.m11 * B.m12 + A.m12 * B.m22 + A.m13 * B.m32 + A.m14 * B.m42,
      A.m21 * B.m12 + A.m22 * B.m22 + A.m23 * B.m32 + A.m24 * B.m42,
      A.m31 * B.m12 + A.m32 * B.m22 + A.m33 * B.m32 + A.m34 * B.m42,
      A.m41 * B.m12 + A.m42 * B.m22 + A.m43 * B.m32 + A.m44 * B.m42,
      A.m11 * B.m13 + A.m12 * B.m23 + A.m13 * B.m33 + A.m14 * B.m43,
      A.m21 * B.m13 + A.m22 * B.m23 + A.m23 * B.m33 + A.m24 * B.m43,
      A.m31 * B.m13 + A.m32 * B.m23 + A.m33 * B.m33 + A.m34 * B.m43,
      A.m41 * B.m13 + A.m42 * B.m23 + A.m43 * B.m33 + A.m44 * B.m43,
      A.m11 * B.m14 + A.m12 * B.m24 + A.m13 * B.m34 + A.m14 * B.m44,
      A.m21 * B.m14 + A.m22 * B.m24 + A.m23 * B.m34 + A.m24 * B.m44,
      A.m31 * B.m14 + A.m32 * B.m24 + A.m33 * B.m34 + A.m34 * B.m44,
      A.m41 * B.m14 + A.m42 * B.m24 + A.m43 * B.m34 + A.m44 * B.m44)
  }

  /** `Transpose`: entry (r, c) of the result is entry (c, r) of A. */
  function Transpose(A: Matrix4x4): (T: Matrix4x4)
    ensures forall r, c :: 0 <= r < 4 && 0 <= c < 4 ==> At(T, r, c) == At(A, c, r)
  {
    Matrix4x4(A.m11, A.m12, A.m13, A.m14,
              A.m21, A.m22, A.m23, A.m24,
              A.m31, A.m32, A.m33, A.m34,
              A.m41, A.m42, A.m43, A.m44)
  }

  /** `operator+`: `m[i] + B.m[i]` for each of the sixteen entries, in storage order. */
  function MatAdd(A: Matrix4x4, B: Matrix4x4): Matrix4x4 {
    Matrix4x4(A.m11 + B.m11, A.m21 + B.m21, A.m31 + B.m31, A.m41 + B.m41,
              A.m12 + B.m12, A.m22 + B.m22, A.m32 + B.m32, A.m42 + B.m42,
              A.m13 + B.m13, A.m23 + B.m23, A.m33 + B.m33, A.m43 + B.m43,
              A.m14 + B.m14, A.m24 + B.m24, A.m34 + B.m34, A.m44 + B.m44)
  }

  /** `operator-`: `m[i] - B.m[i]` for each of the sixteen entries, in storage order. */
  function MatSub(A: Matrix4x4, B: Matrix4x4): Matrix4x4 {
    Matrix4x4(A.m11 - B.m11, A.m21 - B.m21, A.m31 - B.m31, A.m41 - B.m41,
              A.m12 - B.m12, A.m22 - B.m22, A.m32 - B.m32, A.m42 - B.m42,
              A.m13 - B.m13, A.m23 - B.m23, A.m33 - B.m33, A.m43 - B.m43,
              A.m14 - B.m14, A.m24 - B.m24, A.m34 - B.m34, A.m44 - B.m44)
  }

  /** `operator*(float)`: `m[i] * Scalar` for each of the sixteen entries, in storage order. */
  function MatScale(A: Matrix4x4, s: real): Matrix4x4 {
    Matrix4x4(A.m11 * s, A.m21 * s, A.m31 * s, A.m41 * s,
              A.m12 * s, A.m22 * s, A.m32 * s, A.m42 * s,
              A.m13 * s, A.m23 * s, A.m33 * s, A.m43 * s,
              A.m14 * s, A.m24 * s, A.m34 * s, A.m44 * s)
  }

  /** `+` adds entry by entry. */
  lemma MatAddElems(A: Matrix4x4, B: Matrix4x4)
    ensures forall i :: 0 <= i < 16 ==> Elems(MatAdd(A, B))[i] == Elems(A)[i] + Elems(B)[i]
  {
  }

  /**
   * `operator+=`: the loop over the sixteen array entries, done in place on
   * the matrix's storage `m`. It leaves the same matrix as `operator+`.
   */
  method MatAddAssign(m: array<real>, B: Matrix4x4)
    requires m.Length == 16
    modifies m
    ensures FromArray(m[..]) == MatAdd(FromArray(old(m[..])), B)
  {
    var b := Elems(B);
    for i := 0 to 16
      invariant forall j :: 0 <= j < i ==> m[j] == old(m[j]) + b[j]
      invariant forall j :: i <= j < 16 ==> m[j] == old(m[j])
    {
      m[i] := m[i] + b[i];
    }
    ghost var A := FromArray(old(m[..]));
    assert Elems(A) == old(m[..]);
    MatAddElems(A, B);
    assert Elems(FromArray(m[..])) == Elems(MatAdd(A, B));
  }

  /** `Matrix4x4 * Vec4`: the column-vector product, w included. */
  function MatVec(A: Matrix4x4, v: Vec4): (r: Vec4)
    ensures forall i :: 0 <= i < 4 ==>
      Comp(r, i) == At(A, i, 0) * v.x + At(A, i, 1) * v.y + At(A, i, 2) * v.z + At(A, i, 3) * v.w
  {
    Vec4(A.m11 * v.x + A.m12 * v.y + A.m13 * v.z + A.m14 * v.w,
         A.m21 * v.x + A.m22 * v.y + A.m23 * v.z + A.m24 * v.w,
         A.m31 * v.x + A.m32 * v.y + A.m33 * v.z + A.m34 * v.w,
         A.m41 * v.x + A.m42 * v.y + A.m43 * v.z + A.m44 * v.w)
  }

  /** `Vec4 * Matrix4x4`: the row-vector product, w included. */
  function VecMat(v: Vec4, A: Matrix4x4): (r: Vec4)
    ensures forall j :: 0 <= j < 4 ==>
      Comp(r, j) == v.x * At(A, 0, j) + v.y * At(A, 1, j) + v.z * At(A, 2, j) + v.w * At(A, 3, j)
  {
    Vec4(v.x * A.m11 + v.y * A.m21 + v.z * A.m31 + v.w * A.m41,
         v.x * A.m12 + v.y * A.m22 + v.z * A.m32 + v.w * A.m42,
         v.x * A.m13 + v.y * A.m23 + v.z * A.m33 + v.w * A.m43,
         v.x * A.m14 + v.y * A.m24 + v.z * A.m34 + v.w * A.m44)
  }

  /**
   * `a.OuterProduct(b)`. The brace list names x*b.x, x*b.y, x*b.z, x*b.w
   * first, and braces fill the first column first, so the entry at row r,
   * column c is a[c] * b[r].
   */
  function OuterProduct(a: Vec4, b: Vec4): Matrix4x4 {
    Matrix4x4(a.x * b.x, a.x * b.y, a.x * b.z, a.x * b.w,
              a.y * b.x, a.y * b.y, a.y * b.z, a.y * b.w,
              a.z * b.x, a.z * b.y, a.z * b.z, a.z * b.w,
              a.w * b.x, a.w * b.y, a.w * b.z, a.w * b.w)
  }

  /**
   * The textbook outer product a b^T, column c being a scaled by b[c]: the
   * reference `OuterProduct` is compared with.
   */
  function TextbookOuter(a: Vec4, b: Vec4): Matrix4x4 {
    Matrix4x4(a.x * b.x, a.y * b.x, a.z * b.x, a.w * b.x,
              a.x * b.y, a.y * b.y, a.z * b.y, a.w * b.y,
              a.x * b.z, a.y * b.z, a.z * b.z, a.w * b.z,
              a.x * b.w, a.y * b.w, a.z * b.w, a.w * b.w)
  }

  /**
   * `GetColumn(I)`: reads m[4I] .. m[4I+3]. None stands for a read outside
   * the sixteen entries, which happens exactly when I is not in 0..3.
   */
  function GetColumn(A: Matrix4x4, I: int): (r: Option<Vec4>)
    ensures r.Some? <==> 0 <= I < 4
    ensures r.Some? ==> forall k :: 0 <= k < 4 ==> Comp(r.value, k) == At(A, k, I)
  {
    var m := Elems(A);
    if 0 <= I * 4 && I * 4 + 3 < 16 then Some(Vec4(m[I * 4], m[I * 4 + 1], m[I * 4 + 2], m[I * 4 + 3]))
    else None
  }

  /**
   * `GetRow(I)` as written: reads m[I*4], m[(I+1)*4], m[(I+2)*4], m[(I+3)*4].
   * None stands for a read outside the sixteen entries. The last index is in
   * range only for I = 0, and there the result is the first row.
   */
  function GetRow(A: Matrix4x4, I: int): (r: Option<Vec4>)
    ensures r.Some? <==> I == 0
    ensures r.Some? ==> forall k :: 0 <= k < 4 ==> Comp(r.value, k) == At(A, 0, k)
  {
    var m := Elems(A);
    if 0 <= I * 4 && (I + 3) * 4 < 16 then Some(Vec4(m[I * 4], m[(I + 1) * 4], m[(I + 2) * 4], m[(I + 3) * 4]))
    else None
  }

  /** Row I as the name promises it: m[I], m[I+4], m[I+8], m[I+12]. */
  function GetRowFixed(A: Matrix4x4, I: int): (r: Option<Vec4>)
    ensures r.Some? <==> 0 <= I < 4
    ensures r.Some? ==> forall k :: 0 <= k < 4 ==> Comp(r.value, k) == At(A, I, k)
  {
    var m := Elems(A);
    if 0 <= I < 4 then Some(Vec4(m[I], m[I + 4], m[I + 8], m[I + 12])) else None
  }

  /** `Determinant`: cofactor expansion along the first row. */
  function Determinant(A: Matrix4x4): real {
    var A2323 := A.m33 * A.m44 - A.m34 * A.m43;
    var A1323 := A.m32 * A.m44 - A.m34 * A.m42;
    var A1223 := A.m32 * A.m43 - A.m33 * A.m42;
    var A0323 := A.m31 * A.m44 - A.m34 * A.m41;
    var A0223 := A.m31 * A.m43 - A.m33 * A.m41;
    var A0123 := A.m31 * A.m42 - A.m32 * A.m41;
    A.m11 * (A.m22 * A2323 - A.m23 * A1323 + A.m24 * A1223)
    - A.m12 * (A.m21 * A2323 - A.m23 * A0323 + A.m24 * A0223)
    + A.m13 * (A.m21 * A1323 - A.m22 * A0323 + A.m24 * A0123)
    - A.m14 * (A.m21 * A1223 - A.m22 * A0223 + A.m23 * A0123)
  }

  /** The adjugate: the cofactor matrix transposed, as `Inverse` lists it before scaling. */
  function Adjugate(A: Matrix4x4): Matrix4x4 {
    var A2323 := A.m33 * A.m44 - A.m34 * A.m43;
    var A1323 := A.m32 * A.m44 - A.m34 * A.m42;
    var A1223 := A.m32 * A.m43 - A.m33 * A.m42;
    var A0323 := A.m31 * A.m44 - A.m34 * A.m41;
    var A0223 := A.m31 * A.m43 - A.m33 * A.m41;
    var A0123 := A.m31 * A.m42 - A.m32 * A.m41;
    var A2313 := A.m23 * A.m44 - A.m24 * A.m43;
    var A1313 := A.m22 * A.m44 - A.m24 * A.m42;
    var A1213 := A.m22 * A.m43 - A.m23 * A.m42;
    var A2312 := A.m23 * A.m34 - A.m24 * A.m33;
    var A1312 := A.m22 * A.m34 - A.m24 * A.m32;
    var A1212 := A.m22 * A.m33 - A.m23 * A.m32;
    var A0313 := A.m21 * A.m44 - A.m24 * A.m41;
    var A0213 := A.m21 * A.m43 - A.m23 * A.m41;
    var A0312 := A.m21 * A.m34 - A.m24 * A.m31;
    var A0212 := A.m21 * A.m33 - A.m23 * A.m31;
    var A0113 := A.m21 * A.m42 - A.m22 * A.m41;
    var A0112 := A.m21 * A.m32 - A.m22 * A.m31;
    Matrix4x4(
      (A.m22 * A2323 - A.m23 * A1323 + A.m24 * A1223),
      -(A.m21 * A2323 - A.m23 * A0323 + A.m24 * A0223),
      (A.m21 * A1323 - A.m22 * A0323 + A.m24 * A0123),
      -(A.m21 * A1223 - A.m22 * A0223 + A.m23 * A0123),
      -(A.m12 * A2323 - A.m13 * A1323 + A.m14 * A1223),
      (A.m11 * A2323 - A.m13 * A0323 + A.m14 * A0223),
      -(A.m11 * A1323 - A.m12 * A0323 + A.m14 * A0123),
      (A.m11 * A1223 - A.m12 * A0223 + A.m13 * A0123),
      (A.m12 * A2313 - A.m13 * A1313 + A.m14 * A1213),
      -(A.m11 * A2313 - A.m13 * A0313 + A.m14 * A0213),
      (A.m11 * A1313 - A.m12 * A0313 + A.m14 * A0113),
      -(A.m11 * A1213 - A.m12 * A0213 + A.m13 * A0113),
      -(A.m12 * A2312 - A.m13 * A1312 + A.m14 * A1212),
      (A.m11 * A2312 - A.m13 * A0312 + A.m14 * A0212),
      -(A.m11 * A1312 - A.m12 * A0312 + A.m14 * A0112),
      (A.m11 * A1212 - A.m12 * A0212 + A.m13 * A0112))
  }

  /**
   * `Inverse`: every adjugate entry times 1/det. The source only logs when
   * |det| <= 0.1 and divides even when det is 0 (an IEEE infinity); exact
   * reals need det != 0.
   */
  function Inverse(A: Matrix4x4): Matrix4x4
    requires Determinant(A) != 0.0
  {
    var d := 1.0 / Determinant(A);
    var J := Adjugate(A);
    Matrix4x4(d * J.m11, d * J.m21, d * J.m31, d * J.m41,
              d * J.m12, d * J.m22, d * J.m32, d * J.m42,
              d * J.m13, d * J.m23, d * J.m33, d * J.m43,
              d * J.m14, d * J.m24, d * J.m34, d * J.m44)
  }

  /** `Translate`: the identity with (T.x, T.y, T.z, 1) in column 4. */
  function Translate(T: Vec4): (M: Matrix4x4)
    ensures forall r, c :: 0 <= r < 4 && 0 <= c < 3 ==> At(M, r, c) == At(Identity(), r, c)
    ensures At(M, 0, 3) == T.x && At(M, 1, 3) == T.y && At(M, 2, 3) == T.z && At(M, 3, 3) == 1.0
  {
    Matrix4x4(1.0, 0.0, 0.0, 0.0,
              0.0, 1.0, 0.0, 0.0,
              0.0, 0.0, 1.0, 0.0,
              T.x, T.y, T.z, 1.0)
  }

  /** `TransformationMatrix(Rotation, Translation)`: R's first three columns, then (T.x, T.y, T.z, 1). */
  function TransformationMatrix(R: Matrix4x4, T: Vec4): (M: Matrix4x4)
    ensures forall r, c :: 0 <= r < 4 && 0 <= c < 3 ==> At(M, r, c) == At(R, r, c)
    ensures At(M, 0, 3) == T.x && At(M, 1, 3) == T.y && At(M, 2, 3) == T.z && At(M, 3, 3) == 1.0
  {
    Matrix4x4(R.m11, R.m21, R.m31, R.m41,
              R.m12, R.m22, R.m32, R.m42,
              R.m13, R.m23, R.m33, R.m43,
              T.x, T.y, T.z, 1.0)
  }

  /**
   * `TransformationMatrix(Rotation, Translation, Scale)`: as above, with the
   * three diagonal entries of R's columns scaled by S.x, S.y, S.z.
   */
  function TransformationMatrixScaled(R: Matrix4x4, T: Vec4, S: Vec4): (M: Matrix4x4)
    ensures forall r, c :: 0 <= r < 4 && 0 <= c < 3 && r != c ==> At(M, r, c) == At(R, r, c)
    ensures At(M, 0, 0) == R.m11 * S.x && At(M, 1, 1) == R.m22 * S.y && At(M, 2, 2) == R.m33 * S.z
    ensures At(M, 0, 3) == T.x && At(M, 1, 3) == T.y && At(M, 2, 3) == T.z && At(M, 3, 3) == 1.0
  {
    Matrix4x4(R.m11 * S.x, R.m21, R.m31, R.m41,
              R.m12, R.m22 * S.y, R.m32, R.m42,
              R.m13, R.m23, R.m33 * S.z, R.m43,
              T.x, T.y, T.z, 1.0)
  }

  /** Column 1 of `Mult(A, B)`: entry (r, 0) is row r of A dotted with column 0 of B. */
  lemma MultColumn0(A: Matrix4x4, B: Matrix4x4, r: nat)
    requires r < 4
    ensures At(Mult(A, B), r, 0) == ProductEntry(A, B, r, 0)
  {
    var P := Mult(A, B);
    if r == 0 { assert P.m11 == ProductEntry(A, B, 0, 0); }
    else if r == 1 { assert P.m21 == ProductEntry(A, B, 1, 0); }
    else if r == 2 { assert P.m31 == ProductEntry(A, B, 2, 0); }
    else { assert P.m41 == ProductEntry(A, B, 3, 0); }
  }

  /** Column 2 of `Mult(A, B)`: entry (r, 1) is row r of A dotted with column 1 of B. */
  lemma MultColumn1(A: Matrix4x4, B: Matrix4x4, r: nat)
    requires r < 4
    ensures At(Mult(A, B), r, 1) == ProductEntry(A, B, r, 1)
  {
    var P := Mult(A, B);
    if r == 0 { assert P.m12 == ProductEntry(A, B, 0, 1); }
    else if r == 1 { assert P.m22 == ProductEntry(A, B, 1, 1); }
    else if r == 2 { assert P.m32 == ProductEntry(A, B, 2, 1); }
    else { assert P.m42 == ProductEntry(A, B, 3, 1); }
  }

  /** Column 3 of `Mult(A, B)`: entry (r, 2) is row r of A dotted with column 2 of B. */
  lemma MultColumn2(A: Matrix4x4, B: Matrix4x4, r: nat)
    requires r < 4
    ensures At(Mult(A, B), r, 2) == ProductEntry(A, B, r, 2)
  {
    var P := Mult(A, B);
    if r == 0 { assert P.m13 == ProductEntry(A, B, 0, 2); }
    else if r == 1 { assert P.m23 == ProductEntry(A, B, 1, 2); }
    else if r == 2 { assert P.m33 == ProductEntry(A, B, 2, 2); }
    else { assert P.m43 == ProductEntry(A, B, 3, 2); }
  }

  /** Column 4 of `Mult(A, B)`: entry (r, 3) is row r of A dotted with column 3 of B. */
  lemma MultColumn3(A: Matrix4x4, B: Matrix4x4, r: nat)
    requires r < 4
    ensures At(Mult(A, B), r, 3) == ProductEntry(A, B, r, 3)
  {
    var P := Mult(A, B);
    if r == 0 { assert P.m14 == ProductEntry(A, B, 0, 3); }
    else if r == 1 { assert P.m24 == ProductEntry(A, B, 1, 3); }
    else if r == 2 { assert P.m34 == ProductEntry(A, B, 2, 3); }
    else { assert P.m44 == ProductEntry(A, B, 3, 3); }
  }

  /** Entry (r, c) of `Mult(A, B)` is row r of A dotted with column c of B. */
  lemma MultEntry(A: Matrix4x4, B: Matrix4x4, r: nat, c: nat)
    requires r < 4 && c < 4
    ensures At(Mult(A, B), r, c) == ProductEntry(A, B, r, c)
  {
    if c == 0 { MultColumn0(A, B, r); }
    else if c == 1 { MultColumn1(A, B, r); }
    else if c == 2 { MultColumn2(A, B, r); }
    else { MultColumn3(A, B, r); }
  }

  /** Every entry of `Mult(A, B)` is the textbook product entry. */
  lemma MultAt(A: Matrix4x4, B: Matrix4x4)
    ensures forall r, c :: 0 <= r < 4 && 0 <= c < 4 ==> At(Mult(A, B), r, c) == ProductEntry(A, B, r, c)
  {
    forall r, c | 0 <= r < 4 && 0 <= c < 4
      ensures At(Mult(A, B), r, c) == ProductEntry(A, B, r, c)
    {
      MultEntry(A, B, r, c);
    }
  }

  /** Column 1 of `a.OuterProduct(b)` is b scaled by a[0]. */
  lemma OuterProductColumn0(a: Vec4, b: Vec4, r: nat)
    requires r < 4
    ensures At(OuterProduct(a, b), r, 0) == Comp(a, 0) * Comp(b, r)
  {
    var P := OuterProduct(a, b);
    if r == 0 { assert P.m11 == a.x * b.x; }
    else if r == 1 { assert P.m21 == a.x * b.y; }
    else if r == 2 { assert P.m31 == a.x * b.z; }
    else { assert P.m41 == a.x * b.w; }
  }

  /** Column 2 of `a.OuterProduct(b)` is b scaled by a[1]. */
  lemma OuterProductColumn1(a: Vec4, b: Vec4, r: nat)
    requires r < 4
    ensures At(OuterProduct(a, b), r, 1) == Comp(a, 1) * Comp(b, r)
  {
    var P := OuterProduct(a, b);
    if r == 0 { assert P.m12 == a.y * b.x; }
    else if r == 1 { assert P.m22 == a.y * b.y; }
    else if r == 2 { assert P.m32 == a.y * b.z; }
    else { assert P.m42 == a.y * b.w; }
  }

  /** Column 3 of `a.OuterProduct(b)` is b scaled by a[2]. */
  lemma OuterProductColumn2(a: Vec4, b: Vec4, r: nat)
    requires r < 4
    ensures At(OuterProduct(a, b), r, 2) == Comp(a, 2) * Comp(b, r)
  {
    var P := OuterProduct(a, b);
    if r == 0 { assert P.m13 == a.z * b.x; }
    else if r == 1 { assert P.m23 == a.z * b.y; }
    else if r == 2 { assert P.m33 == a.z * b.z; }
    else { assert P.m43 == a.z * b.w; }
  }

  /** Column 4 of `a.OuterProduct(b)` is b scaled by a[3]. */
  lemma OuterProductColumn3(a: Vec4, b: Vec4, r: nat)
    requires r < 4
    ensures At(OuterProduct(a, b), r, 3) == Comp(a, 3) * Comp(b, r)
  {
    var P := OuterProduct(a, b);
    if r == 0 { assert P.m14 == a.w * b.x; }
    else if r == 1 { assert P.m24 == a.w * b.y; }
    else if r == 2 { assert P.m34 == a.w * b.z; }
    else { assert P.m44 == a.w * b.w; }
  }

  /** Entry (r, c) of `a.OuterProduct(b)` is a[c] * b[r]. */
  lemma OuterProductEntry(a: Vec4, b: Vec4, r: nat, c: nat)
    requires r < 4 && c < 4
    ensures At(OuterProduct(a, b), r, c) == Comp(a, c) * Comp(b, r)
  {
    if c == 0 { OuterProductColumn0(a, b, r); }
    else if c == 1 { OuterProductColumn1(a, b, r); }
    else if c == 2 { OuterProductColumn2(a, b, r); }
    else { OuterProductColumn3(a, b, r); }
  }

  // ---------------------------------------------------------------- Vec2

  /** `Vec2<float>`. */
  datatype Vec2 = Vec2(x: real, y: real)

  /** `Vec2<int32_t>`; the 32-bit range is not modelled. */
  datatype Vec2i = Vec2i(x: int, y: int)

  /** b to the n-th power. */
  function Power(b: real, n: nat): real {
    if n == 0 then 1.0 else b * Power(b, n - 1)
  }

  /** b to the n-th power over the integers. */
  function IntPower(b: int, n: nat): int {
    if n == 0 then 1 else b * IntPower(b, n - 1)
  }

  /** 2 to the n-th power. */
  function Pow2(n: nat): (r: nat)
    ensures r >= 1
  {
    if n == 0 then 1 else 2 * Pow2(n - 1)
  }

  function Vec2Add(a: Vec2, b: Vec2): Vec2 { Vec2(a.x + b.x, a.y + b.y) }
  function Vec2Sub(a: Vec2, b: Vec2): Vec2 { Vec2(a.x - b.x, a.y - b.y) }
  function Vec2Scale(a: Vec2, s: real): Vec2 { Vec2(a.x * s, a.y * s) }
  function Vec2Dot(a: Vec2, b: Vec2): real { a.x * b.x + a.y * b.y }

  /**
   * The generic `Vec2<float>::Pow(Power)`: `pow` on each component. Only
   * non-negative powers are modelled.
   */
  function Vec2Pow(v: Vec2, p: nat): Vec2 {
    Vec2(Power(v.x, p), Power(v.y, p))
  }

  /** What the `Vec2<int32_t>` specialisation of `Pow` computes: each component squared `Power - 1` times. */
  function Vec2iPowSquaring(v: Vec2i, p: int): Vec2i {
    var k := if p >= 1 then p - 1 else 0;
    Vec2i(IntPower(v.x, Pow2(k)), IntPower(v.y, Pow2(k)))
  }

  /** Squaring through `Vec2Pow`, the form the MPM weights use. */
  lemma Vec2PowSquare(v: Vec2)
    ensures Vec2Pow(v, 2) == Vec2(v.x * v.x, v.y * v.y)
  {
    assert Power(v.x, 2) == v.x * Power(v.x, 1);
    assert Power(v.y, 2) == v.y * Power(v.y, 1);
  }

  lemma IntPowerOne(b: int)
    ensures IntPower(b, 1) == b
  {
    assert IntPower(b, 1) == b * IntPower(b, 0);
  }

  /** Both 2-power exponents add: b^(2^k) squared is b^(2^(k+1)). */
  lemma {:induction false} IntPowerAdd(b: int, m: nat, n: nat)
    ensures IntPower(b, m + n) == IntPower(b, m) * IntPower(b, n)
  {
    if m > 0 {
      IntPowerAdd(b, m - 1, n);
      assert IntPower(b, m + n) == b * IntPower(b, m - 1 + n);
    }
  }

  /**
   * `Vec2<int32_t>::Pow`, as written: a loop that squares each component
   * `Power - 1` times, in place.
   */
  method Vec2iPow(v: Vec2i, p: int) returns (r: Vec2i)
    ensures r == Vec2iPowSquaring(v, p)
  {
    r := v;
    var i := 0;
    IntPowerOne(v.x);
    IntPowerOne(v.y);
    while i < p - 1
      invariant 0 <= i <= (if p >= 1 then p - 1 else 0)
      invariant r == Vec2i(IntPower(v.x, Pow2(i)), IntPower(v.y, Pow2(i)))
    {
      IntPowerAdd(v.x, Pow2(i), Pow2(i));
      IntPowerAdd(v.y, Pow2(i), Pow2(i));
      r := Vec2i(r.x * r.x, r.y * r.y);
      i := i + 1;
    }
  }

  /** The corrected integer `Pow`: each component to the power p, by p multiplications with the original value. */
  method Vec2iPowFixed(v: Vec2i, p: nat) returns (r: Vec2i)
    ensures r == Vec2i(IntPower(v.x, p), IntPower(v.y, p))
  {
    r := Vec2i(1, 1);
    var i := 0;
    while i < p
      invariant i <= p
      invariant r == Vec2i(IntPower(v.x, i), IntPower(v.y, i))
    {
      IntPowerAdd(v.x, i, 1);
      IntPowerAdd(v.y, i, 1);
      r := Vec2i(r.x * v.x, r.y * v.y);
      i := i + 1;
    }
  }
}
