/**
 * SkinnerDebug: a line mesh that a shader bends into the velocity, normal and tangent of each
 * vertex of a Skinner source, drawn as many times as the source's vertex count needs. The source
 * is reduced to what LateUpdate reads of it: whether it is ready and its vertex count.
 */
module SkinnerDebug {
  import opened Wrappers
  import opened CSharpInt
  import opened Vectors

  /** `linesPerMesh`: as many six-vertex lines as fit under 16-bit indexing. */
  const LinesPerMesh: int := 0x10000 / 6

  /** The vertex count of the line mesh. */
  const MeshVertexCount: int := LinesPerMesh * 6

  lemma LinesPerMeshFits()
    ensures LinesPerMesh == 10922 && MeshVertexCount <= 0x10000 && MeshVertexCount + 6 > 0x10000
  {
  }

  /** The x coordinate of line i: the middle of its slot, `(0.5 + i) / linesPerMesh`. */
  function LineU(i: int): real
  {
    Quot(0.5 + i as real, LinesPerMesh as real)
  }

  /**
   * Vertex c (0 to 5) of line i: pairs (0, 1), (2, 3) and (4, 5) are the velocity, normal and
   * tangent lines, told apart by y, with z = 0 at the start and z = 1 at the end of each.
   */
  function LineVertex(i: int, c: nat): Vector3
  {
    Vector3(LineU(i), (c / 2) as real, (c % 2) as real)
  }

  /** Vertex 2k of a line has (y, z) = (k, 0) and vertex 2k + 1 has (k, 1); all share x. */
  lemma LineVertexLayout(i: int, k: nat)
    requires k < 3
    ensures LineVertex(i, 2 * k) == Vector3(LineU(i), k as real, 0.0)
    ensures LineVertex(i, 2 * k + 1) == Vector3(LineU(i), k as real, 1.0)
  {
    assert (2 * k) / 2 == k && (2 * k) % 2 == 0;
    assert (2 * k + 1) / 2 == k && (2 * k + 1) % 2 == 1;
  }

  /** Every line sits strictly inside (0, 1) in x, in order. */
  lemma LineUInside(i: int, j: int)
    requires 0 <= i < j < LinesPerMesh
    ensures 0.0 < LineU(i) < LineU(j) < 1.0
  {
    LinesPerMeshFits();
    assert LineU(i) == (0.5 + i as real) / 10922.0;
    assert LineU(j) == (0.5 + j as real) / 10922.0;
  }

  /**
   * The vertex and index arrays Start builds: vertex `6 * i + c` is LineVertex(i, c), and the
   * index array lists every vertex in order.
   */
  method BuildLines() returns (vertices: array<Vector3>, indices: array<int>)
    ensures fresh(vertices) && fresh(indices)
    ensures vertices.Length == MeshVertexCount && indices.Length == MeshVertexCount
    ensures forall i, c :: 0 <= i < LinesPerMesh && 0 <= c < 6 ==> vertices[6 * i + c] == LineVertex(i, c)
    ensures forall j :: 0 <= j < indices.Length ==> indices[j] == j
  {
    LinesPerMeshFits();
    vertices := new Vector3[MeshVertexCount](_ => Vector3Zero);
    indices := new int[MeshVertexCount](_ => 0);
    var i := 0;
    while i < LinesPerMesh
      invariant 0 <= i <= LinesPerMesh
      invariant forall i', c :: 0 <= i' < i && 0 <= c < 6 ==> vertices[6 * i' + c] == LineVertex(i', c)
    {
      SetLine(vertices, i);
      i := i + 1;
    }
    var j := 0;
    while j < indices.Length
      invariant 0 <= j <= indices.Length
      invariant forall j' :: 0 <= j' < j ==> indices[j'] == j'
      invariant forall i, c :: 0 <= i < LinesPerMesh && 0 <= c < 6 ==> vertices[6 * i + c] == LineVertex(i, c)
    {
      indices[j] := j;
      j := j + 1;
    }
  }

  /** The body of Start's first loop: the six vertices of line i, at `6 * i` onward. */
  method SetLine(vertices: array<Vector3>, i: int)
    requires 0 <= i < LinesPerMesh && vertices.Length == MeshVertexCount
    modifies vertices
    ensures forall c :: 0 <= c < 6 ==> vertices[6 * i + c] == LineVertex(i, c)
    ensures forall k :: 0 <= k < 6 * i ==> vertices[k] == old(vertices[k])
  {
    LinesPerMeshFits();
    var vi := i * 6;
    var u := Quot(0.5 + i as real, LinesPerMesh as real);
    vertices[vi + 0] := Vector3(u, 0.0, 0.0);
    vertices[vi + 1] := Vector3(u, 0.0, 1.0);
    vertices[vi + 2] := Vector3(u, 1.0, 0.0);
    vertices[vi + 3] := Vector3(u, 1.0, 1.0);
    vertices[vi + 4] := Vector3(u, 2.0, 0.0);
    vertices[vi + 5] := Vector3(u, 2.0, 1.0);
  }

  /**
   * `drawCount`: the vertex count plus `linesPerMesh - 1`, divided by linesPerMesh, in C#'s int
   * arithmetic (the sum wraps and the division truncates toward zero).
   */
  function DrawCount(vertexCount: int32): (d: int32)
    ensures Abs(d) <= MaxInt32 / LinesPerMesh + 1
  {
    var a := Wrap(vertexCount + LinesPerMesh - 1);
    LinesPerMeshFits();
    TruncDiv(a, LinesPerMesh)
  }

  /**
   * For a vertex count whose sum does not overflow, DrawCount rounds up: d draws of linesPerMesh
   * lines cover every vertex and d - 1 draws do not, and the buffer offset's divisor
   * `linesPerMesh * drawCount` fits an int.
   */
  lemma DrawCountCeil(vertexCount: int32)
    requires 0 <= vertexCount <= MaxInt32 - (LinesPerMesh - 1)
    ensures 0 <= DrawCount(vertexCount) && LinesPerMesh * DrawCount(vertexCount) <= MaxInt32
    ensures DrawCount(vertexCount) * LinesPerMesh >= vertexCount
    ensures (DrawCount(vertexCount) - 1) * LinesPerMesh < vertexCount
  {
    LinesPerMeshFits();
    var a := vertexCount + LinesPerMesh - 1;
    assert Wrap(a) == a;
    var d := DrawCount(vertexCount);
    assert d == a / 10922;
    DivNat(a, 10922);
    assert d * 10922 + a % 10922 == a;
  }

  /**
   * A count past that bound wraps the sum negative, and DrawCount is then at most zero: LateUpdate
   * draws nothing.
   */
  lemma DrawCountWrapped(vertexCount: int32)
    requires vertexCount > MaxInt32 - (LinesPerMesh - 1)
    ensures DrawCount(vertexCount) <= 0
  {
    LinesPerMeshFits();
    var a := vertexCount + LinesPerMesh - 1;
    assert Wrap(a) == a - TwoTo32;
  }

  /** `_BufferOffset` for draw i of d: `(float)i / (linesPerMesh * drawCount)`. */
  function BufferOffset(i: nat, d: int): real
    requires 0 < d
  {
    Quot(i as real, (LinesPerMesh * d) as real)
  }

  /** The offsets of the d draws start at zero, increase strictly and stay below one. */
  lemma BufferOffsetsOrdered(i: nat, j: nat, d: int)
    requires i < j < d
    ensures BufferOffset(0, d) == 0.0
    ensures 0.0 <= BufferOffset(i, d) < BufferOffset(j, d) < 1.0
  {
    LinesPerMeshFits();
    var m := (LinesPerMesh * d) as real;
    assert m >= d as real > j as real;
    assert BufferOffset(i, d) == i as real / m && BufferOffset(j, d) == j as real / m;
  }

  /** What LateUpdate reads of a Skinner source. */
  datatype SourceState = SourceState(isReady: bool, vertexCount: int32)

  /** The temporary line mesh. */
  datatype LineMesh = LineMesh(vertices: seq<Vector3>, indices: seq<int>)

  class SkinnerDebugRenderer {
    var mesh: Option<LineMesh>

    constructor ()
      ensures mesh == None
    {
      mesh := None;
    }

    /** Start(): builds the line mesh, MeshVertexCount vertices drawn as consecutive lines. */
    method Start()
      modifies this
      ensures mesh.Some? && |mesh.value.vertices| == MeshVertexCount
      ensures forall i, c :: 0 <= i < LinesPerMesh && 0 <= c < 6 ==>
        mesh.value.vertices[6 * i + c] == LineVertex(i, c)
      ensures mesh.value.indices == seq(MeshVertexCount, j => j)
    {
      var vertices, indices := BuildLines();
      mesh := Some(LineMesh(vertices[..], indices[..]));
    }

    /**
     * LateUpdate(): nothing for a missing or unready source; otherwise one draw per DrawCount,
     * returned as the list of `_BufferOffset` values the draws are made with.
     */
    method LateUpdate(source: Option<SourceState>) returns (offsets: seq<real>)
      ensures source.None? || !source.value.isReady ==> offsets == []
      ensures source.Some? && source.value.isReady ==>
        |offsets| == (if DrawCount(source.value.vertexCount) <= 0 then 0 else DrawCount(source.value.vertexCount))
        && forall i :: 0 <= i < |offsets| ==> offsets[i] == BufferOffset(i, DrawCount(source.value.vertexCount))
    {
      offsets := [];
      if source.None? || !source.value.isReady {
        return;
      }
      var drawCount := DrawCount(source.value.vertexCount);
      var i := 0;
      while i < drawCount
        invariant 0 <= i && (0 < drawCount ==> i <= drawCount) && (drawCount <= 0 ==> i == 0)
        invariant |offsets| == i
        invariant forall k :: 0 <= k < i ==> offsets[k] == BufferOffset(k, drawCount)
      {
        offsets := offsets + [Quot(i as real, (LinesPerMesh * drawCount) as real)];
        i := i + 1;
      }
    }
  }
}
