/**
 * Algebraic facts about the Math3D library: Identity is the unit of the
 * product and Zero annihilates it, Transpose is an involution,
 * OuterProduct is the transposed outer product, the determinant of the
 * identity and of a transpose, the inverse of a translation, and the
 * w-channel rules of the Vec4 operators.
 */
module Math3DLemmas {

  import opened Wrappers
  import opened Math3D

  /** Two matrices with the same sixteen entries are the same matrix. */
  lemma MatrixExt(A: Matrix4x4, B: Matrix4x4)
    requires forall r, c :: 0 <= r < 4 && 0 <= c < 4 ==> At(A, r, c) == At(B, r, c)
    ensures A == B
  {
    assert At(A, 0, 0) == At(B, 0, 0) && At(A, 1, 0) == At(B, 1, 0) && At(A, 2, 0) == At(B, 2, 0) && At(A, 3, 0) == At(B, 3, 0);
    assert At(A, 0, 1) == At(B, 0, 1) && At(A, 1, 1) == At(B, 1, 1) && At(A, 2, 1) == At(B, 2, 1) && At(A, 3, 1) == At(B, 3, 1);
    assert At(A, 0, 2) == At(B, 0, 2) && At(A, 1, 2) == At(B, 1, 2) && At(A, 2, 2) == At(B, 2, 2) && At(A, 3, 2) == At(B, 3, 2);
    assert At(A, 0, 3) == At(B, 0, 3) && At(A, 1, 3) == At(B, 1, 3) && At(A, 2, 3) == At(B, 2, 3) && At(A, 3, 3) == At(B, 3, 3);
  }

  /** `Identity` has 1 on the diagonal and 0 everywhere else. */
  lemma IdentityAt(r: nat, c: nat)
    requires r < 4 && c < 4
    ensures At(Identity(), r, c) == if r == c then 1.0 else 0.0
  {
  }

  /** Identity is a left unit of `Mult`. */
  lemma MultIdentityLeft(A: Matrix4x4)
    ensures Mult(Identity(), A) == A
  {
    forall r, c | 0 <= r < 4 && 0 <= c < 4
      ensures At(Mult(Identity(), A), r, c) == At(A, r, c)
    {
      MultEntry(Identity(), A, r, c);
    }
    MatrixExt(Mult(Identity(), A), A);
  }

  /** Identity is a right unit of `Mult`. */
  lemma MultIdentityRight(A: Matrix4x4)
    ensures Mult(A, Identity()) == A
  {
    forall r, c | 0 <= r < 4 && 0 <= c < 4
      ensures At(Mult(A, Identity()), r, c) == At(A, r, c)
    {
      MultEntry(A, Identity(), r, c);
    }
    MatrixExt(Mult(A, Identity()), A);
  }

  /** The zero matrix annihilates from the left. */
  lemma MultZeroLeft(A: Matrix4x4)
    ensures Mult(Zero(), A) == Zero()
  {
  }

  /** Identity is its own transpose, has determinant 1, and is the inverse of its transpose. */
  lemma IdentityInverseTranspose(F: Matrix4x4)
    requires F == Identity()
    ensures Transpose(F) == F && Determinant(F) == 1.0 && Inverse(Transpose(F)) == F
  {
    assert Transpose(F) == F;
    InverseTranslate(Vec4(0.0, 0.0, 0.0, F.m44));
  }

  /** `Transpose` undoes itself. */
  lemma TransposeInvolution(A: Matrix4x4)
    ensures Transpose(Transpose(A)) == A
  {
  }

  /**
   * `a.OuterProduct(b)` is the transpose of the textbook outer product a b^T,
   * which is the textbook outer product b a^T.
   */
  lemma OuterProductTransposed(a: Vec4, b: Vec4)
    ensures OuterProduct(a, b) == Transpose(TextbookOuter(a, b))
    ensures OuterProduct(a, b) == TextbookOuter(b, a)
  {
  }

  /** The textbook outer product, read entry by entry: (r, c) holds a[r] * b[c]. */
  lemma TextbookOuterEntry(a: Vec4, b: Vec4, r: nat, c: nat)
    requires r < 4 && c < 4
    ensures At(TextbookOuter(a, b), r, c) == Comp(a, r) * Comp(b, c)
  {
    OuterProductTransposed(a, b);
    TransposeInvolution(TextbookOuter(a, b));
    OuterProductEntry(a, b, c, r);
  }

  /** The row-vector product is the column-vector product with the transpose. */
  lemma VecMatIsTransposedMatVec(v: Vec4, A: Matrix4x4)
    ensures VecMat(v, A) == MatVec(Transpose(A), v)
  {
  }

  /** det(Identity) = 1. */
  lemma DeterminantIdentity()
    ensures Determinant(Identity()) == 1.0
  {
  }

  /** The determinant of the transpose is the determinant. */
  lemma DeterminantTranspose(A: Matrix4x4)
    ensures Determinant(Transpose(A)) == Determinant(A)
  {
  }

  /** Translating by -T undoes translating by T, and `Inverse` finds it. */
  lemma InverseTranslate(T: Vec4)
    ensures Determinant(Translate(T)) == 1.0
    ensures Inverse(Translate(T)) == Translate(Vec4(-T.x, -T.y, -T.z, T.w))
    ensures Mult(Translate(T), Inverse(Translate(T))) == Identity()
  {
  }

  /** `Cross` is anti-commutative in x, y, z; both orders set w to 1. */
  lemma CrossAntiCommutative(a: Vec4, b: Vec4)
    ensures Cross(a, b) == Vec4(-Cross(b, a).x, -Cross(b, a).y, -Cross(b, a).z, 1.0)
  {
  }

  /** Subtracting what was added gives back the matrix. */
  lemma MatAddSub(A: Matrix4x4, B: Matrix4x4)
    ensures MatSub(MatAdd(A, B), B) == A
  {
  }

  /**
   * For a rotation-like R (last row and column those of Identity),
   * `TransformationMatrix(R, T)` is rotate-then-translate: Translate(T) x R.
   */
  lemma TransformationIsTranslateAfterRotate(R: Matrix4x4, T: Vec4)
    requires R.m41 == 0.0 && R.m42 == 0.0 && R.m43 == 0.0
    requires R.m14 == 0.0 && R.m24 == 0.0 && R.m34 == 0.0 && R.m44 == 1.0
    ensures TransformationMatrix(R, T) == Mult(Translate(T), R)
  {
  }

  /** With Identity as the rotation, the model matrix is the translation. */
  lemma TransformationOfIdentity(T: Vec4)
    ensures TransformationMatrix(Identity(), T) == Translate(T)
  {
  }

  /** A unit scale makes the three-argument overload the two-argument one. */
  lemma TransformationUnitScale(R: Matrix4x4, T: Vec4)
    ensures TransformationMatrixScaled(R, T, Vec4(1.0, 1.0, 1.0, 1.0)) == TransformationMatrix(R, T)
  {
  }

  /** Two in-place additions equal one addition of the sum; w stays put. */
  lemma Vec4AddAssignTwice(a: Vec4, b: Vec4, c: Vec4)
    ensures Vec4AddAssign(Vec4AddAssign(a, b), c) == Vec4AddAssign(a, Vec4Add(b, c))
  {
  }

  /** `+=` leaves the same value as binary `+`: both keep the left w. */
  lemma Vec4AddAssignIsAdd(a: Vec4, b: Vec4)
    ensures Vec4AddAssign(a, b) == Vec4Add(a, b)
  {
  }

  /** For row 0 the as-written `GetRow` and the corrected one agree. */
  lemma GetRowFirstRow(A: Matrix4x4)
    ensures GetRow(A, 0) == GetRowFixed(A, 0) == Some(Vec4(A.m11, A.m12, A.m13, A.m14))
  {
  }

  /** Row 1 exists, but the as-written `GetRow(1)` reads m[16], past the sixteen entries. */
  lemma GetRowSecondRowOutOfRange(A: Matrix4x4)
    ensures GetRow(A, 1) == None
    ensures GetRowFixed(A, 1) == Some(Vec4(A.m21, A.m22, A.m23, A.m24))
  {
  }

  /** The as-written integer `Pow` computes the power for exponents 1 and 2. */
  lemma Vec2iPowSquaringLowPowers(v: Vec2i, p: int)
    requires 1 <= p <= 2
    ensures Vec2iPowSquaring(v, p) == Vec2i(IntPower(v.x, p), IntPower(v.y, p))
  {
    IntPowerOne(v.x);
    IntPowerOne(v.y);
    if p == 2 {
      IntPowerAdd(v.x, 1, 1);
      IntPowerAdd(v.y, 1, 1);
    }
  }

  /**
   * From exponent 3 on the as-written integer `Pow` squares too often:
   * (2, 2) to the third gives (16, 16) instead of (8, 8); and exponent 0
   * leaves the vector unchanged instead of giving (1, 1).
   */
  lemma Vec2iPowSquaringCounterexample(v: Vec2i)
    ensures Vec2iPowSquaring(Vec2i(2, 2), 3) == Vec2i(16, 16)
    ensures IntPower(2, 3) == 8
    ensures Vec2iPowSquaring(v, 0) == v && IntPower(v.x, 0) == 1
  {
    IntPowerOne(v.x);
    IntPowerOne(v.y);
    assert Pow2(2) == 4;
    assert IntPower(2, 4) == 16;
  }
}
