/**
 * The per-object transform every drawable carries: a rotation matrix that
 * new rotations compose onto from the left, and a translation that moves
 * by Vec4 `+=`. The model matrix keeps the rotation's first three columns
 * and puts the translation in the fourth.
 */
module Objects {

  import opened Math3D
  import Math3DLemmas

  /** `D3D_PRIMITIVE_TOPOLOGY_TRIANGLELIST`, every object's topology. */
  const TriangleList: nat := 4

  class ObjectRenderer {
    const PrimitiveType: nat
    var Rotation: Matrix4x4
    var Translation: Vec4

    /** A new object: identity rotation, translation `Vec4()`. */
    constructor()
      ensures Rotation == Identity() && Translation == Origin() && PrimitiveType == TriangleList
    {
      PrimitiveType := TriangleList;
      Rotation := Identity();
      Translation := Origin();
    }

    /** `ApplyRotation`: the new transform multiplies the rotation from the left; the translation stays. */
    method ApplyRotation(Transform: Matrix4x4)
      modifies this
      ensures Rotation == Mult(Transform, old(Rotation)) && Translation == old(Translation)
    {
      Rotation := Mult(Transform, Rotation);
    }

    /** `ApplyTranslation`: x, y, z move by the transform's; w and the rotation stay. */
    method ApplyTranslation(Transform: Vec4)
      modifies this
      ensures Translation == Vec4AddAssign(old(Translation), Transform) && Rotation == old(Rotation)
      ensures Translation.w == old(Translation).w
    {
      Translation := Vec4AddAssign(Translation, Transform);
    }

    /** `SetTranslation`: the translation is replaced whole, w included; the rotation stays. */
    method SetTranslation(Transform: Vec4)
      modifies this
      ensures Translation == Transform && Rotation == old(Rotation)
    {
      Translation := Transform;
    }

    /** `GetModelMatrix`: the rotation's first three columns, then (T.x, T.y, T.z, 1). */
    function GetModelMatrix(): (M: Matrix4x4)
      reads this
      ensures forall r, c :: 0 <= r < 4 && 0 <= c < 3 ==> At(M, r, c) == At(Rotation, r, c)
      ensures At(M, 0, 3) == Translation.x && At(M, 1, 3) == Translation.y
      ensures At(M, 2, 3) == Translation.z && At(M, 3, 3) == 1.0
    {
      TransformationMatrix(Rotation, Translation)
    }

    /** The 16 constants `Draw` uploads: the view matrix times the model matrix. */
    function ModelViewMatrix(ViewMatrix: Matrix4x4): (MV: Matrix4x4)
      reads this
      ensures forall r, c :: 0 <= r < 4 && 0 <= c < 4 ==> At(MV, r, c) == ProductEntry(ViewMatrix, GetModelMatrix(), r, c)
    {
      MultAt(ViewMatrix, GetModelMatrix());
      Mult(ViewMatrix, GetModelMatrix())
    }
  }

  /** Two translations are one translation by their sum; w is left as it was. */
  method TranslateTwice(Object: ObjectRenderer, First: Vec4, Second: Vec4)
    modifies Object
    ensures Object.Translation == Vec4AddAssign(old(Object.Translation), Vec4Add(First, Second))
    ensures Object.Rotation == old(Object.Rotation)
  {
    Object.ApplyTranslation(First);
    Object.ApplyTranslation(Second);
    Math3DLemmas.Vec4AddAssignTwice(old(Object.Translation), First, Second);
  }

  /**
   * An object that was only translated: its model matrix is the translation
   * matrix of (T.x, T.y, T.z, 1), whatever w was given.
   */
  method TranslatedObject(T: Vec4) returns (Object: ObjectRenderer)
    ensures fresh(Object) && Object.GetModelMatrix() == Translate(Point(T.x, T.y, T.z))
  {
    Object := new ObjectRenderer();
    Object.ApplyTranslation(T);
    Math3DLemmas.TransformationOfIdentity(Object.Translation);
  }
}
