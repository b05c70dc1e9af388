/**
 * SkinnerModel.Initialize: the unique vertices of a skinned mesh with their normals, tangents and
 * bone weights, one UV per vertex that names its slot, and one point primitive per vertex.
 */
module SkinnerModelAsset {
  import opened Wrappers
  import opened Vectors
  import opened Linq
  import opened UniqueVertices

  /** What Initialize reads of its source mesh. */
  datatype SourceMesh = SourceMesh(
    vertices: seq<Vector3>, normals: seq<Vector3>, tangents: seq<Vector4>, boneWeights: seq<BoneWeight>)

  /** The four lists the extraction loop builds. */
  datatype UniqueLists = UniqueLists(
    vertices: seq<Vector3>, normals: seq<Vector3>, tangents: seq<Vector4>, boneWeights: seq<BoneWeight>)

  /** The lists Initialize stores in its mesh: attributes, UV channel 0 and the point indices. */
  datatype ModelMesh = ModelMesh(
    vertices: seq<Vector3>, normals: seq<Vector3>, tangents: seq<Vector4>, uv: seq<Vector2>,
    boneWeights: seq<BoneWeight>, indices: seq<int>)

  /** Every kept input index is an index of each attribute list, so the loop never reads past one. */
  predicate AttributesCover(source: SourceMesh)
  {
    var first := FirstIndices(source.vertices, |source.vertices|);
    InRange(first, |source.normals|) && InRange(first, |source.tangents|) && InRange(first, |source.boneWeights|)
  }

  /**
   * The extraction loop: vertex i is kept, with normal, tangent and bone weight i, when no vertex
   * kept so far equals it. Reading an attribute list past its end is the error.
   */
  method ExtractUnique(source: SourceMesh) returns (r: Result<UniqueLists, InitError>)
    ensures r.Ok? <==> AttributesCover(source)
    ensures r.Ok? ==>
      var first := FirstIndices(source.vertices, |source.vertices|);
      && r.value.vertices == Unique(source.vertices)
      && r.value.normals == Select(first, source.normals)
      && r.value.tangents == Select(first, source.tangents)
      && r.value.boneWeights == Select(first, source.boneWeights)
  {
    var s := source.vertices;
    var outVertices: seq<Vector3> := [];
    var outNormals: seq<Vector3> := [];
    var outTangents: seq<Vector4> := [];
    var outBoneWeights: seq<BoneWeight> := [];
    var i := 0;
    ghost var kept: seq<nat> := [];
    while i < |s|
      invariant i <= |s| && kept == FirstIndices(s, i)
      invariant InRange(kept, |source.normals|)
      invariant InRange(kept, |source.tangents|)
      invariant InRange(kept, |source.boneWeights|)
      invariant outVertices == Select(kept, s)
      invariant outNormals == Select(kept, source.normals)
      invariant outTangents == Select(kept, source.tangents)
      invariant outBoneWeights == Select(kept, source.boneWeights)
    {
      FirstIndicesCover(s, i);
      if s[i] !in outVertices {
        assert FirstIndices(s, i + 1) == kept + [i];
        if i >= |source.normals| || i >= |source.tangents| || i >= |source.boneWeights| {
          FirstIndicesExactly(s, |s|, i);
          return Err(IndexOutOfRange);
        }
        SelectAppend(kept, s, i);
        SelectAppend(kept, source.normals, i);
        SelectAppend(kept, source.tangents, i);
        SelectAppend(kept, source.boneWeights, i);
        outVertices := outVertices + [s[i]];
        outNormals := outNormals + [source.normals[i]];
        outTangents := outTangents + [source.tangents[i]];
        outBoneWeights := outBoneWeights + [source.boneWeights[i]];
        kept := kept + [i];
      } else {
        assert FirstIndices(s, i + 1) == kept;
      }
      i := i + 1;
    }
    return Ok(UniqueLists(outVertices, outNormals, outTangents, outBoneWeights));
  }

  /** UV i of n: `Vector2.right * (i + 0.5) / n`. */
  function ModelUVs(n: nat): (r: seq<Vector2>)
    ensures |r| == n
  {
    seq(n, i requires 0 <= i < n => Div2(Scale2(Vector2(1.0, 0.0), i as real + 0.5), n as real))
  }

  /** UV i is ((i + 0.5) / n, 0), the middle of slot i, strictly inside (0, 1). */
  lemma ModelUVAt(n: nat, i: nat)
    requires i < n
    ensures ModelUVs(n)[i] == Vector2(Quot(i as real + 0.5, n as real), 0.0)
    ensures 0.0 < ModelUVs(n)[i].x < 1.0
  {
    QuotBelowOne(i as real + 0.5, n as real);
  }

  /** The UVs increase with the vertex index, so no two vertices share one. */
  lemma ModelUVsIncrease(n: nat, i: nat, j: nat)
    requires i < j < n
    ensures ModelUVs(n)[i].x < ModelUVs(n)[j].x
  {
    QuotMonotone(i as real + 0.5, j as real + 0.5, n as real);
  }

  class SkinnerModel {
    var vertexCount: int
    var mesh: Option<ModelMesh>

    constructor ()
      ensures vertexCount == 0 && mesh == None
    {
      vertexCount := 0;
      mesh := None;
    }

    /**
     * Initialize(source): stores the unique vertices with their attributes, their UVs and the
     * identity index list, and the vertex count; an out-of-range attribute read leaves both fields
     * as they were.
     */
    method Initialize(source: SourceMesh) returns (r: Result<(), InitError>)
      modifies this
      ensures r.Ok? <==> AttributesCover(source)
      ensures r.Err? ==> vertexCount == old(vertexCount) && mesh == old(mesh)
      ensures r.Ok? ==>
        var first := FirstIndices(source.vertices, |source.vertices|);
        var n := |first|;
        && vertexCount == n <= |source.vertices|
        && mesh == Some(ModelMesh(
             Unique(source.vertices), Select(first, source.normals), Select(first, source.tangents),
             ModelUVs(n), Select(first, source.boneWeights), Range(0, n)))
    {
      var lists := ExtractUnique(source);
      if lists.Err? {
        return Err(lists.error);
      }
      var u := lists.value;
      var n := |u.vertices|;
      mesh := Some(ModelMesh(u.vertices, u.normals, u.tangents, ModelUVs(n), u.boneWeights, Range(0, n)));
      vertexCount := n;
      return Ok(());
    }
  }
}
