/**
 * The shared sphere geometry: one vertex per (ring, segment) pair for
 * rings and segments 0 .. 3, and six indices per vertex. The trigonometric
 * vertex coordinates are an input `Point(ring, segment)`; only the index
 * arithmetic and the vertex order are modelled.
 */
module Sphere {

  import opened Math3D

  const Segments: nat := 3
  const Rings: nat := 3
  /** Vertices per ring: segments 0 .. Segments inclusive. */
  const RingSize: nat := Segments + 1
  /** (Rings + 1) * (Segments + 1) vertices in all. */
  const VertexCount: nat := (Rings + 1) * RingSize

  datatype SphereVertex = SphereVertex(Position: Vec4, Normal: Vec4)
  /** `sizeof(Sphere::Vertex)`: two Vec4s of four 4-byte floats. */
  const VertexSize: nat := 32

  /** Coordinates of the point at a ring and segment. */
  datatype Coordinates = Coordinates(X: real, Y: real, Z: real)

  /** The vertex pushed at position `v`: ring `v / RingSize`, segment `v % RingSize`. */
  function VertexAt(Point: (nat, nat) -> Coordinates, v: nat): (r: SphereVertex)
    ensures r.Position.w == 1.0 && r.Normal.w == 0.0
    ensures r.Normal.x == r.Position.x && r.Normal.y == r.Position.y && r.Normal.z == r.Position.z
  {
    var p := Point(v / RingSize, v % RingSize);
    SphereVertex(Vec4(p.X, p.Y, p.Z, 1.0), Vec4(p.X, p.Y, p.Z, 0.0))
  }

  /** The six indices emitted after vertex `Current`: two triangles towards the next ring. */
  function IndicesAt(Current: nat): seq<int> {
    var Next := Current + Segments + 1;
    [Current, Next, Current + 1, Current + 1, Next, Next + 1]
  }

  /** The first `n` vertices in push order. */
  function VerticesUpTo(Point: (nat, nat) -> Coordinates, n: nat): (r: seq<SphereVertex>)
    ensures |r| == n
  {
    if n == 0 then [] else VerticesUpTo(Point, n - 1) + [VertexAt(Point, n - 1)]
  }

  /** The indices emitted for the first `n` vertices. */
  function IndicesUpTo(n: nat): (r: seq<int>)
    ensures |r| == 6 * n
  {
    if n == 0 then [] else IndicesUpTo(n - 1) + IndicesAt(n - 1)
  }

  /** Vertex `v` of the generated data is the one at its ring and segment. */
  lemma {:induction false} VertexInOrder(Point: (nat, nat) -> Coordinates, n: nat, v: nat)
    requires v < n
    ensures VerticesUpTo(Point, n)[v] == VertexAt(Point, v)
  {
    if v < n - 1 {
      VertexInOrder(Point, n - 1, v);
    }
  }

  /** Index `k` of the generated data belongs to vertex `k / 6` and lies in [k/6, k/6 + Segments + 2]. */
  lemma {:induction false} IndexInOrder(n: nat, k: nat)
    requires k < 6 * n
    ensures IndicesUpTo(n)[k] == IndicesAt(k / 6)[k % 6]
    ensures k / 6 <= IndicesUpTo(n)[k] <= k / 6 + Segments + 2
  {
    if k < 6 * (n - 1) {
      IndexInOrder(n - 1, k);
    }
  }

  /** Every index emitted for `n` vertices is below `n + Segments + 2`, and that bound is reached. */
  lemma LargestIndex(n: nat)
    requires n > 0
    ensures forall k :: 0 <= k < 6 * n ==> 0 <= IndicesUpTo(n)[k] <= n + Segments + 1
    ensures IndicesUpTo(n)[6 * n - 1] == n + Segments + 1
  {
    forall k | 0 <= k < 6 * n
      ensures 0 <= IndicesUpTo(n)[k] <= n + Segments + 1
    {
      IndexInOrder(n, k);
    }
    IndexInOrder(n, 6 * n - 1);
  }

  /** `Sphere::Vertices` and `Sphere::Indices`, the statics all spheres draw from. */
  class SphereData {
    var Vertices: seq<SphereVertex>
    var Indices: seq<int>

    /** Both statics start empty. */
    constructor()
      ensures Vertices == [] && Indices == []
    {
      Vertices, Indices := [], [];
    }

    /**
     * The body of the segment loop: pushes the vertex at (ring, segment),
     * which is vertex `n`, then its six indices.
     */
    method PushSegment(Point: (nat, nat) -> Coordinates, ring: nat, segment: nat, ghost n: nat, ghost Indices0: seq<int>)
      requires n == ring * RingSize + segment && segment < RingSize
      requires Vertices == VerticesUpTo(Point, n) && Indices == Indices0 + IndicesUpTo(n)
      modifies this
      ensures Vertices == VerticesUpTo(Point, n + 1) && Indices == Indices0 + IndicesUpTo(n + 1)
    {
      var Current := ring * (Segments + 1) + segment;
      assert Current == n && Current / RingSize == ring && Current % RingSize == segment;
      Vertices := Vertices + [VertexAt(Point, Current)];
      var Next := Current + Segments + 1;
      Indices := Indices + [Current, Next, Current + 1];
      Indices := Indices + [Current + 1, Next, Next + 1];
      assert Indices == Indices0 + (IndicesUpTo(n) + IndicesAt(n));
    }

    /**
     * `GenerateSphereData`: nothing when vertices already exist; otherwise
     * the ring-major loops push every vertex and its six indices.
     */
    method GenerateSphereData(Point: (nat, nat) -> Coordinates)
      modifies this
      ensures old(Vertices) != [] ==> Vertices == old(Vertices) && Indices == old(Indices)
      ensures old(Vertices) == [] ==>
        Vertices == VerticesUpTo(Point, VertexCount) && Indices == old(Indices) + IndicesUpTo(VertexCount)
    {
      if Vertices != [] {
        return;
      }
      ghost var Indices0 := Indices;
      ghost var n: nat := 0;
      var ring := 0;
      while ring <= Rings
        invariant 0 <= ring <= Rings + 1 && n == ring * RingSize
        invariant Vertices == VerticesUpTo(Point, n) && Indices == Indices0 + IndicesUpTo(n)
      {
        var segment := 0;
        while segment <= Segments
          invariant 0 <= segment <= Segments + 1 && n == ring * RingSize + segment
          invariant Vertices == VerticesUpTo(Point, n) && Indices == Indices0 + IndicesUpTo(n)
        {
          PushSegment(Point, ring, segment, n, Indices0);
          n := n + 1;
          segment := segment + 1;
        }
        ring := ring + 1;
      }
    }

    /** The body of the bounded segment loop: the vertex, then its quad only below the last ring and segment. */
    method PushSegmentBounded(Point: (nat, nat) -> Coordinates, ring: nat, segment: nat, ghost n: nat,
                              ghost Indices0: seq<int>)
      requires n == ring * RingSize + segment && segment < RingSize
      requires Vertices == VerticesUpTo(Point, n) && Indices == Indices0 + BoundedUpTo(n)
      modifies this
      ensures Vertices == VerticesUpTo(Point, n + 1) && Indices == Indices0 + BoundedUpTo(n + 1)
    {
      var Current := ring * (Segments + 1) + segment;
      assert Current == n && Current / RingSize == ring && Current % RingSize == segment;
      Vertices := Vertices + [VertexAt(Point, Current)];
      if ring < Rings && segment < Segments {
        var Next := Current + Segments + 1;
        Indices := Indices + [Current, Next, Current + 1];
        Indices := Indices + [Current + 1, Next, Next + 1];
        assert Indices == Indices0 + (BoundedUpTo(n) + IndicesAt(n));
      }
    }

    /**
     * Generation with indices only between existing vertices: the two
     * triangles of the quad from (ring, segment) to (ring + 1, segment + 1),
     * for rings and segments below their last value.
     */
    method GenerateSphereDataBounded(Point: (nat, nat) -> Coordinates)
      modifies this
      ensures old(Vertices) != [] ==> Vertices == old(Vertices) && Indices == old(Indices)
      ensures old(Vertices) == [] ==>
        Vertices == VerticesUpTo(Point, VertexCount) && Indices == old(Indices) + BoundedUpTo(VertexCount)
    {
      if Vertices != [] {
        return;
      }
      ghost var Indices0 := Indices;
      ghost var n: nat := 0;
      var ring := 0;
      while ring <= Rings
        invariant 0 <= ring <= Rings + 1 && n == ring * RingSize
        invariant Vertices == VerticesUpTo(Point, n) && Indices == Indices0 + BoundedUpTo(n)
      {
        var segment := 0;
        while segment <= Segments
          invariant 0 <= segment <= Segments + 1 && n == ring * RingSize + segment
          invariant Vertices == VerticesUpTo(Point, n) && Indices == Indices0 + BoundedUpTo(n)
        {
          PushSegmentBounded(Point, ring, segment, n, Indices0);
          n := n + 1;
          segment := segment + 1;
        }
        ring := ring + 1;
      }
    }
  }

  /** Whether vertex `v` starts a quad: it is below the last ring and the last segment. */
  predicate StartsQuad(v: nat) {
    v / RingSize < Rings && v % RingSize < Segments
  }

  /** The indices the bounded generation emits for the first `n` vertices. */
  function BoundedUpTo(n: nat): seq<int> {
    if n == 0 then [] else BoundedUpTo(n - 1) + (if StartsQuad(n - 1) then IndicesAt(n - 1) else [])
  }

  /** A quad's indices lie inside the vertex array. */
  lemma QuadInRange(v: nat)
    requires StartsQuad(v)
    ensures forall k :: 0 <= k < 6 ==> 0 <= IndicesAt(v)[k] < VertexCount
  {
    assert v == RingSize * (v / RingSize) + v % RingSize;
    assert v <= RingSize * (Rings - 1) + Segments - 1;
  }

  /** Every index of the bounded generation lies inside the vertex array. */
  lemma {:induction false} BoundedInRange(n: nat)
    ensures forall k :: 0 <= k < |BoundedUpTo(n)| ==> 0 <= BoundedUpTo(n)[k] < VertexCount
  {
    if n > 0 {
      BoundedInRange(n - 1);
      if StartsQuad(n - 1) {
        QuadInRange(n - 1);
      }
    }
  }

  /** The bounded generation emits two triangles for each of the Rings * Segments quads: 54 indices. */
  lemma BoundedIndexCount()
    ensures |BoundedUpTo(VertexCount)| == 6 * Rings * Segments
  {
    assert |BoundedUpTo(RingSize)| == 6 * Segments;
    assert |BoundedUpTo(2 * RingSize)| == 12 * Segments;
    assert |BoundedUpTo(3 * RingSize)| == 18 * Segments;
    forall v | 3 * RingSize <= v < 4 * RingSize
      ensures !StartsQuad(v)
    {
      assert v / RingSize == Rings;
    }
    assert BoundedUpTo(13) == BoundedUpTo(12);
    assert BoundedUpTo(14) == BoundedUpTo(13);
    assert BoundedUpTo(15) == BoundedUpTo(14);
    assert BoundedUpTo(16) == BoundedUpTo(15);
  }

  /**
   * As written, generation emits 96 indices for 16 vertices, and index 95
   * is 20: it names a vertex that does not exist.
   */
  lemma SphereIndexOutOfRange()
    ensures VertexCount == 16 && |IndicesUpTo(VertexCount)| == 96
    ensures IndicesUpTo(VertexCount)[95] == 20 && 20 >= VertexCount
  {
    LargestIndex(VertexCount);
  }

  /** Generation is idempotent: a second call, whatever its input, changes nothing. */
  method GenerateTwice(Data: SphereData, Point: (nat, nat) -> Coordinates, Later: (nat, nat) -> Coordinates)
    requires Data.Vertices == [] && Data.Indices == []
    modifies Data
    ensures Data.Vertices == VerticesUpTo(Point, VertexCount) && Data.Indices == IndicesUpTo(VertexCount)
  {
    Data.GenerateSphereData(Point);
    Data.GenerateSphereData(Later);
  }
}
