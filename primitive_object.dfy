/**
 * Primitive objects (cube, plane, sphere) share one vertex buffer and one
 * index buffer per primitive type. The type's statics hold the shared
 * buffers and a reference count; each object holds its own references and
 * views. Created GPU resources and their addresses are opaque ids.
 */
module Primitives {

  import opened Wrappers
  import Sphere

  /** `sizeof(uint32_t)`, the size of one index. */
  const IndexSize: nat := 4
  /** `DXGI_FORMAT_R32_UINT`, the index format. */
  const IndexFormatR32Uint: nat := 42

  datatype VertexBufferView = VertexBufferView(BufferLocation: nat, SizeInBytes: nat, StrideInBytes: nat)
  datatype IndexBufferView = IndexBufferView(BufferLocation: nat, SizeInBytes: nat, Format: nat)

  /**
   * The statics of a primitive type `T`: its vertex and index data (by
   * count), the shared buffers and `T::RefCount`. `Holders` is the set of
   * objects of this type whose buffers are initialised.
   */
  class SharedGeometry {
    const NumVertices: nat
    const VertexStride: nat
    const NumIndices: nat
    var VertexBuffer: Option<nat>
    var IndexBuffer: Option<nat>
    var RefCount: int
    ghost var Holders: set<PrimitiveObject>

    /**
     * The count is the number of holders; the shared buffers exist exactly
     * while someone holds them; every holder holds them.
     */
    ghost predicate Valid()
      reads this, Holders
    {
      RefCount == |Holders|
      && (RefCount > 0 <==> VertexBuffer.Some?) && (RefCount > 0 <==> IndexBuffer.Some?)
      && forall h :: h in Holders ==>
           h.Shared == this && h.BuffersInitialized && h.VertexBuffer == VertexBuffer && h.IndexBuffer == IndexBuffer
    }

    /** No buffers and no holders before any object of the type creates them. */
    constructor(Vertices: nat, Stride: nat, Indices: nat)
      ensures Valid() && Holders == {} && RefCount == 0
      ensures NumVertices == Vertices && VertexStride == Stride && NumIndices == Indices
    {
      NumVertices, VertexStride, NumIndices := Vertices, Stride, Indices;
      VertexBuffer, IndexBuffer := None, None;
      RefCount := 0;
      Holders := {};
    }
  }

  class PrimitiveObject {
    const Shared: SharedGeometry
    var BuffersInitialized: bool
    var VertexBuffer: Option<nat>
    var IndexBuffer: Option<nat>
    var VertexView: VertexBufferView
    var IndexView: IndexBufferView

    /** The type's statics are consistent, and this object holds the buffers iff it is initialised. */
    ghost predicate Valid()
      reads this, Shared, Shared.Holders
    {
      Shared.Valid() && (BuffersInitialized <==> this in Shared.Holders)
    }

    /** A new object holds nothing. */
    constructor(Geometry: SharedGeometry)
      requires Geometry.Valid()
      ensures Valid() && Shared == Geometry && !BuffersInitialized
      ensures VertexBuffer == None && IndexBuffer == None
    {
      Shared := Geometry;
      BuffersInitialized := false;
      VertexBuffer, IndexBuffer := None, None;
      VertexView := VertexBufferView(0, 0, 0);
      IndexView := IndexBufferView(0, 0, 0);
      new;
      assert this !in Shared.Holders;
    }

    /**
     * `CreateBuffers`: nothing when already initialised. Otherwise reuse the
     * type's buffers when the count is non-zero, or else take the freshly
     * uploaded `NewVertexBuffer`/`NewIndexBuffer` and publish them to the
     * type; either way the count goes up by one and the views are sized
     * element count times element size.
     */
    method CreateBuffers(NewVertexBuffer: nat, NewIndexBuffer: nat)
      requires Valid()
      modifies this, Shared
      ensures Valid() && BuffersInitialized
      ensures old(BuffersInitialized) ==>
        Shared.RefCount == old(Shared.RefCount) && Shared.Holders == old(Shared.Holders)
        && VertexBuffer == old(VertexBuffer) && IndexBuffer == old(IndexBuffer)
        && VertexView == old(VertexView) && IndexView == old(IndexView)
      ensures !old(BuffersInitialized) ==>
        Shared.RefCount == old(Shared.RefCount) + 1 && Shared.Holders == old(Shared.Holders) + {this}
        && VertexView == VertexBufferView(VertexBuffer.value, Shared.NumVertices * Shared.VertexStride, Shared.VertexStride)
        && IndexView == IndexBufferView(IndexBuffer.value, Shared.NumIndices * IndexSize, IndexFormatR32Uint)
      ensures !old(BuffersInitialized) && old(Shared.RefCount) != 0 ==>
        VertexBuffer == old(Shared.VertexBuffer) && IndexBuffer == old(Shared.IndexBuffer)
      ensures !old(BuffersInitialized) && old(Shared.RefCount) == 0 ==>
        VertexBuffer == Some(NewVertexBuffer) && IndexBuffer == Some(NewIndexBuffer)
      ensures Shared.VertexBuffer == VertexBuffer && Shared.IndexBuffer == IndexBuffer
    {
      if BuffersInitialized {
        return;
      }
      if Shared.RefCount != 0 {
        VertexBuffer := Shared.VertexBuffer;
        IndexBuffer := Shared.IndexBuffer;
        Shared.RefCount := Shared.RefCount + 1;
      } else {
        VertexBuffer := Some(NewVertexBuffer);
        IndexBuffer := Some(NewIndexBuffer);
        Shared.VertexBuffer := VertexBuffer;
        Shared.IndexBuffer := IndexBuffer;
        Shared.RefCount := Shared.RefCount + 1;
      }
      VertexView := VertexBufferView(VertexBuffer.value, Shared.NumVertices * Shared.VertexStride, Shared.VertexStride);
      IndexView := IndexBufferView(IndexBuffer.value, Shared.NumIndices * IndexSize, IndexFormatR32Uint);
      BuffersInitialized := true;
      Shared.Holders := Shared.Holders + {this};
    }

    /**
     * `DestroyBuffers`: nothing when not initialised. Otherwise drop this
     * object's references and the count; the type's buffers are released
     * exactly when the count reaches zero.
     */
    method DestroyBuffers()
      requires Valid()
      modifies this, Shared
      ensures Valid() && !BuffersInitialized
      ensures !old(BuffersInitialized) ==>
        Shared.RefCount == old(Shared.RefCount) && Shared.Holders == old(Shared.Holders)
        && Shared.VertexBuffer == old(Shared.VertexBuffer) && Shared.IndexBuffer == old(Shared.IndexBuffer)
      ensures old(BuffersInitialized) ==>
        Shared.RefCount == old(Shared.RefCount) - 1 && Shared.Holders == old(Shared.Holders) - {this}
        && VertexBuffer == None && IndexBuffer == None
      ensures old(BuffersInitialized) ==>
        (Shared.RefCount == 0 <==> Shared.VertexBuffer == None)
        && (Shared.RefCount != 0 ==> Shared.VertexBuffer == old(Shared.VertexBuffer) && Shared.IndexBuffer == old(Shared.IndexBuffer))
    {
      if !BuffersInitialized {
        return;
      }
      ghost var Rest := Shared.Holders - {this};
      assert |Rest| == |Shared.Holders| - 1;
      VertexBuffer := None;
      IndexBuffer := None;
      Shared.RefCount := Shared.RefCount - 1;
      if Shared.RefCount == 0 {
        Shared.VertexBuffer := None;
        Shared.IndexBuffer := None;
      }
      BuffersInitialized := false;
      Shared.Holders := Rest;
      assert Rest == {} <== Shared.RefCount == 0;
    }

    /** `GetNumVertices`: the type's index count, which is what the draw call uses. */
    function GetNumVertices(): nat
      reads Shared
    {
      Shared.NumIndices
    }
  }

  /**
   * Two objects of one type: the second reuses the first's buffers; the
   * buffers survive the first destruction and go with the second.
   */
  method SharedUntilLastRelease(Geometry: SharedGeometry, First: PrimitiveObject, Second: PrimitiveObject,
                                VB1: nat, IB1: nat, VB2: nat, IB2: nat)
    requires First != Second && First.Shared == Geometry && Second.Shared == Geometry
    requires First.Valid() && Second.Valid() && Geometry.Holders == {}
    modifies First, Second, Geometry
    ensures Geometry.RefCount == 0 && Geometry.VertexBuffer == None && Geometry.IndexBuffer == None
  {
    First.CreateBuffers(VB1, IB1);
    Second.CreateBuffers(VB2, IB2);
    assert Second.VertexBuffer == Some(VB1) && Geometry.RefCount == 2;
    First.DestroyBuffers();
    assert Geometry.VertexBuffer == Some(VB1);
    Second.DestroyBuffers();
  }

  /**
   * A sphere's draw count: after generation the type's index count, 96, is
   * what each sphere draws, from 16 vertices.
   */
  method SphereDrawCount(Data: Sphere.SphereData, Point: (nat, nat) -> Sphere.Coordinates) returns (Count: nat)
    requires Data.Vertices == [] && Data.Indices == []
    modifies Data
    ensures Count == 96 && |Data.Vertices| == Sphere.VertexCount == 16
  {
    Data.GenerateSphereData(Point);
    var Geometry := new SharedGeometry(|Data.Vertices|, Sphere.VertexSize, |Data.Indices|);
    var Object := new PrimitiveObject(Geometry);
    Count := Object.GetNumVertices();
  }
}
