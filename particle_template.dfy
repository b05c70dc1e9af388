/**
 * Skinner's particle template: copies of the particle shapes packed one after another into one
 * mesh whose vertex count stays within 16-bit indexing. Copy (instance) k takes its shape from
 * the shape list in turn, carries its id `k + 0.5` (later divided by the number of copies) in
 * the second UV channel, and has its triangle indices shifted to its own first vertex.
 */
module ParticleTemplate {
  import opened Wrappers
  import opened CSharpInt
  import opened Vectors
  import opened Linq

  /** The most vertices the packer lets into one mesh. */
  const MaxVertices: int := 65535

  /** The attributes of a shape mesh the packer copies. */
  datatype Shape = Shape(vertices: seq<Vector3>, normals: seq<Vector3>, tangents: seq<Vector4>,
                         uv: seq<Vector2>, triangles: seq<int>)

  /** A shape as Unity keeps it: one normal, tangent and UV per vertex; every corner a vertex. */
  predicate WellFormed(s: Shape)
  {
    && |s.normals| == |s.vertices| && |s.tangents| == |s.vertices| && |s.uv| == |s.vertices|
    && forall t :: 0 <= t < |s.triangles| ==> 0 <= s.triangles[t] < |s.vertices|
  }

  /** The lists the finished mesh holds. */
  datatype MeshData = MeshData(vertices: seq<Vector3>, normals: seq<Vector3>, tangents: seq<Vector4>,
                               uv0: seq<Vector2>, uv1: seq<Vector2>, indices: seq<int>)

  const EmptyMesh := MeshData([], [], [], [], [], [])

  /**
   * GetShape(index): the shape list is used cyclically; a missing or empty list, or a missing
   * entry, gives the default shape.
   */
  function GetShape(shapes: Option<seq<Option<Shape>>>, defaultShape: Shape, index: nat): (r: Shape)
    ensures (shapes == None || |shapes.value| == 0) ==> r == defaultShape
    ensures r == defaultShape || (shapes.Some? && Some(r) in shapes.value)
    ensures shapes.Some? && index < |shapes.value| ==>
      r == if shapes.value[index].Some? then shapes.value[index].value else defaultShape
  {
    if shapes == None || |shapes.value| == 0 then defaultShape
    else
      var mesh := shapes.value[index % |shapes.value|];
      if mesh == None then defaultShape else mesh.value
  }

  /** Instance `index + n` gets the same shape as instance `index`, n being the list's length. */
  lemma GetShapeCycles(shapes: Option<seq<Option<Shape>>>, defaultShape: Shape, index: nat)
    requires shapes.Some?
    ensures GetShape(shapes, defaultShape, index + |shapes.value|) == GetShape(shapes, defaultShape, index)
  {
    var n := |shapes.value|;
    if n > 0 {
      ModUnique(index + n, n, index / n + 1, index % n);
    }
  }

  /** Division with remainder is unique: `a == q * n + r` with `0 <= r < n` fixes `a % n`. */
  lemma ModUnique(a: int, n: int, q: int, r: int)
    requires n > 0 && 0 <= r < n && a == q * n + r
    ensures a % n == r
  {
    var q0, r0 := a / n, a % n;
    assert a == q0 * n + r0;
    MulSub(q, q0, n);
    var d := q - q0;
    if d > 0 {
      MulAtLeast(d, n);
    } else if d < 0 {
      MulAtLeast(-d, n);
      MulSub(0, d, n);
    }
  }

  lemma MulSub(a: int, b: int, n: int)
    ensures a * n - b * n == (a - b) * n
  {
  }

  lemma MulAtLeast(d: int, n: int)
    requires d >= 1 && n > 0
    ensures d * n >= n
  {
    assert d * n == (d - 1) * n + n;
    assert (d - 1) * n >= 0;
  }

  // ---------------------------------------------------------------------------------------
  // The packed lists after the first n instances.

  /** `vertexCount` after n instances: the vertex counts of their shapes, added up. */
  function VertexTotal(shape: nat -> Shape, n: nat): nat
  {
    if n == 0 then 0 else VertexTotal(shape, n - 1) + |shape(n - 1).vertices|
  }

  /** Whether instance n still fits after instances 0 .. n - 1. */
  predicate Fits(shape: nat -> Shape, n: nat)
  {
    VertexTotal(shape, n) + |shape(n).vertices| <= MaxVertices
  }

  /** The temporary UV1 of instance k: its id in x. */
  function InstanceId(k: nat): Vector2
  {
    Vector2(k as real + 0.5, 0.0)
  }

  /** `triangles.Select(i => i + offset)`. */
  function Shift(triangles: seq<int>, offset: int): (r: seq<int>)
    ensures |r| == |triangles|
    ensures forall t :: 0 <= t < |triangles| ==> r[t] == triangles[t] + offset
  {
    seq(|triangles|, t requires 0 <= t < |triangles| => triangles[t] + offset)
  }

  function VertexPiece(shape: nat -> Shape): nat -> seq<Vector3>
  {
    (k: nat) => shape(k).vertices
  }

  function NormalPiece(shape: nat -> Shape): nat -> seq<Vector3>
  {
    (k: nat) => shape(k).normals
  }

  function TangentPiece(shape: nat -> Shape): nat -> seq<Vector4>
  {
    (k: nat) => shape(k).tangents
  }

  function UVPiece(shape: nat -> Shape): nat -> seq<Vector2>
  {
    (k: nat) => shape(k).uv
  }

  function IdPiece(shape: nat -> Shape): nat -> seq<Vector2>
  {
    (k: nat) => Repeat(InstanceId(k), |shape(k).vertices|)
  }

  function IndexPiece(shape: nat -> Shape): nat -> seq<int>
  {
    (k: nat) => Shift(shape(k).triangles, VertexTotal(shape, k))
  }

  /** UV1 after `Select(x => x / instanceCount)`; on an empty list the division never happens. */
  function Rescale(uvs: seq<Vector2>, n: int): (r: seq<Vector2>)
    requires n != 0 || |uvs| == 0
    ensures |r| == |uvs|
    ensures forall i :: 0 <= i < |uvs| ==> r[i] == Div2(uvs[i], n as real)
  {
    seq(|uvs|, i requires 0 <= i < |uvs| => Div2(uvs[i], n as real))
  }

  /** The mesh RebuildMesh leaves after packing the first n instances. */
  function Packed(shape: nat -> Shape, n: nat): MeshData
  {
    MeshData(
      Concat(VertexPiece(shape), n),
      Concat(NormalPiece(shape), n),
      Concat(TangentPiece(shape), n),
      Concat(UVPiece(shape), n),
      Rescale(Concat(IdPiece(shape), n), n),
      Concat(IndexPiece(shape), n))
  }

  // ---------------------------------------------------------------------------------------
  // What the packed lists hold.

  /** `vertexCount` is the length of the vertex list, and UV1 has one entry per vertex. */
  lemma {:induction false} PackedLengths(shape: nat -> Shape, n: nat)
    ensures |Concat(VertexPiece(shape), n)| == VertexTotal(shape, n)
    ensures |Concat(IdPiece(shape), n)| == VertexTotal(shape, n)
  {
    if n > 0 {
      PackedLengths(shape, n - 1);
    }
  }

  /** With well-formed shapes the normal, tangent and UV0 lists run parallel to the vertex list. */
  lemma {:induction false} PackedParallel(shape: nat -> Shape, n: nat)
    requires forall k: nat :: WellFormed(shape(k))
    ensures |Concat(NormalPiece(shape), n)| == VertexTotal(shape, n)
    ensures |Concat(TangentPiece(shape), n)| == VertexTotal(shape, n)
    ensures |Concat(UVPiece(shape), n)| == VertexTotal(shape, n)
  {
    if n > 0 {
      PackedParallel(shape, n - 1);
      assert WellFormed(shape(n - 1));
    }
  }

  /** Vertex v of instance k is vertex v of its shape, after the vertices of instances 0 .. k - 1. */
  lemma PackedVertexAt(shape: nat -> Shape, n: nat, k: nat, v: nat)
    requires k < n && v < |shape(k).vertices|
    ensures |Concat(VertexPiece(shape), n)| == VertexTotal(shape, n)
    ensures VertexTotal(shape, k) + v < VertexTotal(shape, n)
    ensures Concat(VertexPiece(shape), n)[VertexTotal(shape, k) + v]
         == shape(k).vertices[v]
  {
    PackedLengths(shape, k);
    PackedLengths(shape, n);
    ConcatAt(VertexPiece(shape), n, k, v);
  }

  /** Before rescaling, every vertex of instance k carries the id `k + 0.5`. */
  lemma PackedIdAt(shape: nat -> Shape, n: nat, k: nat, v: nat)
    requires k < n && v < |shape(k).vertices|
    ensures |Concat(IdPiece(shape), n)| == VertexTotal(shape, n)
    ensures VertexTotal(shape, k) + v < VertexTotal(shape, n)
    ensures Concat(IdPiece(shape), n)[VertexTotal(shape, k) + v] == Vector2(k as real + 0.5, 0.0)
  {
    var piece := IdPiece(shape);
    assert piece(k) == Repeat(InstanceId(k), |shape(k).vertices|);
    PackedLengths(shape, k);
    PackedLengths(shape, n);
    ConcatAt(piece, n, k, v);
  }

  /** After rescaling, instance k's id is `(k + 0.5) / n`, strictly between 0 and 1. */
  lemma RescaledIdAt(shape: nat -> Shape, n: nat, k: nat, v: nat)
    requires k < n && v < |shape(k).vertices|
    ensures |Rescale(Concat(IdPiece(shape), n), n)| == VertexTotal(shape, n)
    ensures VertexTotal(shape, k) + v < VertexTotal(shape, n)
    ensures Rescale(Concat(IdPiece(shape), n), n)[VertexTotal(shape, k) + v]
         == Vector2(Quot(k as real + 0.5, n as real), 0.0)
    ensures 0.0 < Quot(k as real + 0.5, n as real) < 1.0
  {
    PackedIdAt(shape, n, k, v);
    QuotBelowOne(k as real + 0.5, n as real);
  }

  /**
   * Triangle corner t of instance k is its shape's corner t shifted by `vertexCount` before the
   * instance, placed after the corners of instances 0 .. k - 1.
   */
  lemma PackedIndexAt(shape: nat -> Shape, n: nat, k: nat, t: nat)
    requires k < n && t < |shape(k).triangles|
    ensures |Concat(IndexPiece(shape), k)| + t < |Concat(IndexPiece(shape), n)|
    ensures Concat(IndexPiece(shape), n)[|Concat(IndexPiece(shape), k)| + t]
         == shape(k).triangles[t] + VertexTotal(shape, k)
  {
    ConcatAt(IndexPiece(shape), n, k, t);
  }

  /** The vertex count only grows as instances are added. */
  lemma {:induction false} VertexTotalGrows(shape: nat -> Shape, m: nat, n: nat)
    requires m <= n
    ensures VertexTotal(shape, m) <= VertexTotal(shape, n)
  {
    if m < n {
      VertexTotalGrows(shape, m, n - 1);
    }
  }

  /**
   * Every instance before a count that fits also fitted when it was packed: with RebuildMesh's
   * stop condition, the packed count is the first instance that does not fit, or the limit.
   */
  lemma FitsBelow(shape: nat -> Shape, n: nat, k: nat)
    requires k < n && VertexTotal(shape, n) <= MaxVertices
    ensures Fits(shape, k)
  {
    VertexTotalGrows(shape, k + 1, n);
  }

  /** With well-formed shapes every packed index names a packed vertex. */
  lemma PackedIndicesInRange(shape: nat -> Shape, n: nat, j: nat)
    requires forall k: nat :: WellFormed(shape(k))
    requires j < |Concat(IndexPiece(shape), n)|
    ensures 0 <= Concat(IndexPiece(shape), n)[j] < VertexTotal(shape, n)
  {
    var piece := IndexPiece(shape);
    ConcatFrom(piece, n, j);
    var k: nat, i: nat :| k < n && i < |piece(k)| && Concat(piece, n)[j] == piece(k)[i];
    assert WellFormed(shape(k));
    VertexTotalGrows(shape, k + 1, n);
  }

  // ---------------------------------------------------------------------------------------
  // The asset.

  /** The shape function the packer reads from the asset's list and default shape. */
  function ShapeOf(shapes: Option<seq<Option<Shape>>>, defaultShape: Shape): nat -> Shape
  {
    (k: nat) => GetShape(shapes, defaultShape, k)
  }

  class SkinnerParticleTemplate {
    /** `_shapes`: the list itself or any entry may be null (None). */
    var shapes: Option<seq<Option<Shape>>>
    var maxInstanceCount: int32
    var instanceCount: int32
    var defaultShape: Shape
    var mesh: MeshData

    /** A new asset: one empty shape slot, at most 8192 instances, none packed yet. */
    constructor (defaultShape: Shape)
      ensures shapes == Some([None]) && maxInstanceCount == 8192 && instanceCount == 0
      ensures this.defaultShape == defaultShape && mesh == EmptyMesh
    {
      shapes := Some([None]);
      maxInstanceCount := 8192;
      instanceCount := 0;
      this.defaultShape := defaultShape;
      mesh := EmptyMesh;
    }

    /** OnValidate(): clamps the instance limit into [4, 8192]. */
    method OnValidate()
      modifies this
      ensures maxInstanceCount == Clamp(old(maxInstanceCount), 4, 8192)
      ensures 4 <= maxInstanceCount <= 8192
      ensures shapes == old(shapes) && instanceCount == old(instanceCount)
      ensures defaultShape == old(defaultShape) && mesh == old(mesh)
    {
      maxInstanceCount := Clamp(maxInstanceCount, 4, 8192);
    }

    /**
     * RebuildMesh(): packs instances while fewer than the limit are packed and the next one
     * still fits under 65535 vertices, then rebuilds the mesh from the packed lists.
     */
    method RebuildMesh()
      modifies this
      ensures shapes == old(shapes) && defaultShape == old(defaultShape) && maxInstanceCount == old(maxInstanceCount)
      ensures 0 <= instanceCount && (instanceCount <= maxInstanceCount || instanceCount == 0)
      ensures VertexTotal(ShapeOf(shapes, defaultShape), instanceCount) <= MaxVertices
      ensures instanceCount >= maxInstanceCount || !Fits(ShapeOf(shapes, defaultShape), instanceCount)
      ensures mesh == Packed(ShapeOf(shapes, defaultShape), instanceCount)
    {
      instanceCount, mesh := Pack(shapes, defaultShape, maxInstanceCount);
    }
  }

  /** The packing loop of RebuildMesh, with `_instanceCount` as the counter `count`. */
  method Pack(shapes: Option<seq<Option<Shape>>>, defaultShape: Shape, maxInstanceCount: int32)
    returns (count: int32, mesh: MeshData)
    ensures 0 <= count && (count <= maxInstanceCount || count == 0)
    ensures VertexTotal(ShapeOf(shapes, defaultShape), count) <= MaxVertices
    ensures count >= maxInstanceCount || !Fits(ShapeOf(shapes, defaultShape), count)
    ensures mesh == Packed(ShapeOf(shapes, defaultShape), count)
  {
    var shape := ShapeOf(shapes, defaultShape);
    var vtx: seq<Vector3>, nrm: seq<Vector3>, tan: seq<Vector4> := [], [], [];
    var uv0: seq<Vector2>, uv1: seq<Vector2>, idx: seq<int> := [], [], [];
    var vertexCount := 0;
    count := 0;
    while count < maxInstanceCount
      invariant 0 <= count && (count <= maxInstanceCount || count == 0)
      invariant vertexCount == VertexTotal(shape, count) <= MaxVertices
      invariant vtx == Concat(VertexPiece(shape), count)
      invariant nrm == Concat(NormalPiece(shape), count)
      invariant tan == Concat(TangentPiece(shape), count)
      invariant uv0 == Concat(UVPiece(shape), count)
      invariant uv1 == Concat(IdPiece(shape), count)
      invariant idx == Concat(IndexPiece(shape), count)
      decreases maxInstanceCount - count
    {
      var m := GetShape(shapes, defaultShape, count);
      if vertexCount + |m.vertices| > MaxVertices {
        break;
      }
      assert m == shape(count);
      ConcatStep(VertexPiece(shape), count);
      ConcatStep(NormalPiece(shape), count);
      ConcatStep(TangentPiece(shape), count);
      ConcatStep(UVPiece(shape), count);
      ConcatStep(IdPiece(shape), count);
      ConcatStep(IndexPiece(shape), count);
      vtx := vtx + m.vertices;
      nrm := nrm + m.normals;
      tan := tan + m.tangents;
      uv0 := uv0 + m.uv;
      uv1 := uv1 + Repeat(InstanceId(count), |m.vertices|);
      idx := idx + Shift(m.triangles, vertexCount);
      vertexCount := vertexCount + |m.vertices|;
      count := count + 1;
    }
    PackedLengths(shape, count);
    uv1 := Rescale(uv1, count);
    mesh := MeshData(vtx, nrm, tan, uv0, uv1, idx);
  }
}
