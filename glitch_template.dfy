/**
 * Skinner's glitch template: a mesh of 65535 vertices, all at the origin, joined in order into
 * triangles. Each vertex carries four random hashes in its UV: its own, those of the next two
 * vertices of its triangle, and one the triangle shares. `Random.value` is the parameter `random`:
 * its k-th draw is `random(k)`.
 */
module GlitchTemplate {
  import opened Vectors
  import opened Linq

  /** `vcount`: the largest multiple of 3 below 65536. */
  const VertexCount: int := (65536 / 3) * 3

  /** The number of triangles, one loop pass each. */
  const TriangleCount: nat := VertexCount / 3

  /** The vertex count is 65535, a whole number of triangles within 16-bit indexing. */
  lemma VertexCountFits()
    ensures VertexCount == 65535 == 3 * TriangleCount && VertexCount < 0x10000
  {
  }

  /** The UVs of one triangle from its hashes: each vertex rotates the three vertex hashes once more. */
  function TriangleUVs(u0: real, u1: real, u2: real, u3: real): seq<Vector4>
  {
    [Vector4(u0, u1, u2, u3), Vector4(u1, u2, u0, u3), Vector4(u2, u0, u1, u3)]
  }

  /** The hash of vertex c (0, 1 or 2) of triangle t, or the triangle's shared hash for c == 3. */
  function Hash(random: nat -> real, t: nat, c: nat): real
  {
    random(4 * t + c)
  }

  /** Triangle t draws the four values `random(4t)` .. `random(4t + 3)`. */
  function TriangleAt(random: nat -> real, t: nat): seq<Vector4>
  {
    TriangleUVs(Hash(random, t, 0), Hash(random, t, 1), Hash(random, t, 2), Hash(random, t, 3))
  }

  /** The UV list after the first `t` triangles. */
  function GlitchUVs(random: nat -> real, t: nat): seq<Vector4>
  {
    if t == 0 then [] else GlitchUVs(random, t - 1) + TriangleAt(random, t - 1)
  }

  /** Three UVs per triangle. */
  lemma {:induction false} GlitchUVsLength(random: nat -> real, t: nat)
    ensures |GlitchUVs(random, t)| == 3 * t
  {
    if t > 0 {
      GlitchUVsLength(random, t - 1);
    }
  }

  /** More triangles only append. */
  lemma {:induction false} GlitchUVsGrow(random: nat -> real, m: nat, n: nat)
    requires m <= n
    ensures GlitchUVs(random, m) <= GlitchUVs(random, n)
  {
    if m < n {
      GlitchUVsGrow(random, m, n - 1);
      var a, b, c := GlitchUVs(random, m), GlitchUVs(random, n - 1), TriangleAt(random, n - 1);
      assert (b + c)[..|a|] == a;
    }
  }

  /** Triangle t's UVs follow those of triangles 0 .. t - 1. */
  lemma GlitchUVsLast(random: nat -> real, t: nat, j: nat)
    requires j < 3
    ensures 3 * t + j < |GlitchUVs(random, t + 1)|
    ensures GlitchUVs(random, t + 1)[3 * t + j] == TriangleAt(random, t)[j]
  {
    var a, b := GlitchUVs(random, t), TriangleAt(random, t);
    assert GlitchUVs(random, t + 1) == a + b;
    GlitchUVsLength(random, t);
    assert (a + b)[3 * t + j] == b[j];
  }

  /**
   * Vertex j of triangle t: `.x` is its own hash, `.y` and `.z` those of vertices j + 1 and
   * j + 2 (mod 3) of the triangle, `.w` the triangle's shared hash.
   */
  lemma GlitchUVAt(random: nat -> real, n: nat, t: nat, j: nat)
    requires t < n && j < 3
    ensures |GlitchUVs(random, n)| == 3 * n
    ensures GlitchUVs(random, n)[3 * t + j]
         == Vector4(Hash(random, t, j), Hash(random, t, (j + 1) % 3), Hash(random, t, (j + 2) % 3), Hash(random, t, 3))
  {
    GlitchUVsLength(random, n);
    GlitchUVsLast(random, t, j);
    GlitchUVsGrow(random, t + 1, n);
    TriangleCorner(random, t, j);
    var a, b := GlitchUVs(random, t + 1), GlitchUVs(random, n);
    assert b[3 * t + j] == a[3 * t + j];
  }

  /** Corner j of a triangle's UVs names the hashes of vertices j, j + 1 and j + 2 (mod 3). */
  lemma TriangleCorner(random: nat -> real, t: nat, j: nat)
    requires j < 3
    ensures TriangleAt(random, t)[j]
         == Vector4(Hash(random, t, j), Hash(random, t, (j + 1) % 3), Hash(random, t, (j + 2) % 3), Hash(random, t, 3))
  {
    if j == 0 {
    } else if j == 1 {
    } else {
      assert (j + 1) % 3 == 0 && (j + 2) % 3 == 1;
    }
  }

  /** Within a triangle, the next vertex's (x, y, z) is the left rotation of this one's. */
  lemma GlitchUVRotates(random: nat -> real, n: nat, t: nat, j: nat)
    requires t < n && j < 2
    ensures |GlitchUVs(random, n)| == 3 * n
    ensures var a, b := GlitchUVs(random, n)[3 * t + j], GlitchUVs(random, n)[3 * t + j + 1];
      b.x == a.y && b.y == a.z && b.z == a.x
  {
    GlitchUVAt(random, n, t, j);
    GlitchUVAt(random, n, t, j + 1);
  }

  /** The three vertices of a triangle share `.w`. */
  lemma GlitchUVSharesW(random: nat -> real, n: nat, t: nat, j: nat, k: nat)
    requires t < n && j < 3 && k < 3
    ensures |GlitchUVs(random, n)| == 3 * n
    ensures GlitchUVs(random, n)[3 * t + j].w == GlitchUVs(random, n)[3 * t + k].w
  {
    GlitchUVAt(random, n, t, j);
    GlitchUVAt(random, n, t, k);
  }

  /** The finished mesh: vertex positions, hashed UVs and triangle indices. */
  datatype GlitchMesh = GlitchMesh(vertices: seq<Vector3>, uvs: seq<Vector4>, indices: seq<int>)

  class SkinnerGlitchTemplate {
    var mesh: GlitchMesh

    constructor ()
      ensures mesh == GlitchMesh([], [], [])
    {
      mesh := GlitchMesh([], [], []);
    }

    /**
     * RebuildMesh(random): fills the mesh; returns the number of random values drawn, so a
     * caller knows where the stream continues.
     */
    method RebuildMesh(random: nat -> real) returns (draws: nat)
      modifies this
      ensures draws == 4 * TriangleCount
      ensures |mesh.vertices| == VertexCount && forall i :: 0 <= i < VertexCount ==> mesh.vertices[i] == Vector3Zero
      ensures mesh.uvs == GlitchUVs(random, TriangleCount) && |mesh.uvs| == VertexCount
      ensures mesh.indices == Range(0, VertexCount)
    {
      var uvs;
      uvs, draws := HashedUVs(random);
      GlitchUVsLength(random, TriangleCount);
      mesh := GlitchMesh(seq(VertexCount, _ => Vector3Zero), uvs, Range(0, VertexCount));
    }
  }

  /** The UV loop of RebuildMesh: one pass of four draws per triangle. */
  method HashedUVs(random: nat -> real) returns (uvs: seq<Vector4>, draws: nat)
    ensures uvs == GlitchUVs(random, TriangleCount)
    ensures draws == 4 * TriangleCount
  {
    uvs := [];
    draws := 0;
    var i := 0;
    ghost var t: nat := 0;
    while i < VertexCount
      invariant 0 <= t <= TriangleCount && i == 3 * t
      invariant draws == 4 * t
      invariant uvs == GlitchUVs(random, t)
    {
      var u0 := random(draws);
      var u1 := random(draws + 1);
      var u2 := random(draws + 2);
      var u3 := random(draws + 3);
      var triangle := [Vector4(u0, u1, u2, u3), Vector4(u1, u2, u0, u3), Vector4(u2, u0, u1, u3)];
      assert triangle == TriangleAt(random, t);
      uvs := uvs + triangle;
      draws := draws + 4;
      i := i + 3;
      t := t + 1;
    }
    VertexCountFits();
    assert t == TriangleCount;
  }
}
