/**
 * SkinnerTemplate.Initialize: the unique vertices of a skinned mesh with their bone weights, one
 * UV per vertex that names its slot, and one point primitive per vertex.
 */
module SkinnerTemplateAsset {
  import opened Wrappers
  import opened Vectors
  import opened Linq
  import opened UniqueVertices

  /** What Initialize reads of its source mesh. */
  datatype SourceMesh = SourceMesh(vertices: seq<Vector3>, boneWeights: seq<BoneWeight>)

  /** The two lists the extraction loop builds. */
  datatype UniqueLists = UniqueLists(vertices: seq<Vector3>, boneWeights: seq<BoneWeight>)

  /** The lists Initialize gives its mesh before Mesh.Optimize: vertices, UV channel 0, weights, indices. */
  datatype TemplateMesh = TemplateMesh(
    vertices: seq<Vector3>, uv: seq<Vector2>, boneWeights: seq<BoneWeight>, indices: seq<int>)

  /** Every kept input index is an index of the bone-weight list. */
  predicate WeightsCover(source: SourceMesh)
  {
    InRange(FirstIndices(source.vertices, |source.vertices|), |source.boneWeights|)
  }

  /**
   * The extraction loop: vertex i is kept, with bone weight i, when no vertex kept so far equals
   * it. Reading the bone-weight list past its end is the error.
   */
  method ExtractUnique(source: SourceMesh) returns (r: Result<UniqueLists, InitError>)
    ensures r.Ok? <==> WeightsCover(source)
    ensures r.Ok? ==>
      && r.value.vertices == Unique(source.vertices)
      && r.value.boneWeights == Select(FirstIndices(source.vertices, |source.vertices|), source.boneWeights)
  {
    var s := source.vertices;
    var outVertices: seq<Vector3> := [];
    var outBoneWeights: seq<BoneWeight> := [];
    var i := 0;
    ghost var kept: seq<nat> := [];
    while i < |s|
      invariant i <= |s| && kept == FirstIndices(s, i)
      invariant InRange(kept, |source.boneWeights|)
      invariant outVertices == Select(kept, s)
      invariant outBoneWeights == Select(kept, source.boneWeights)
    {
      FirstIndicesCover(s, i);
      if s[i] !in outVertices {
        assert FirstIndices(s, i + 1) == kept + [i];
        if i >= |source.boneWeights| {
          FirstIndicesExactly(s, |s|, i);
          return Err(IndexOutOfRange);
        }
        SelectAppend(kept, s, i);
        SelectAppend(kept, source.boneWeights, i);
        outVertices := outVertices + [s[i]];
        outBoneWeights := outBoneWeights + [source.boneWeights[i]];
        kept := kept + [i];
      } else {
        assert FirstIndices(s, i + 1) == kept;
      }
      i := i + 1;
    }
    return Ok(UniqueLists(outVertices, outBoneWeights));
  }

  /** UV i of n: `Vector2.right * i / n`. */
  function TemplateUVs(n: nat): (r: seq<Vector2>)
    ensures |r| == n
  {
    seq(n, i requires 0 <= i < n => Div2(Scale2(Vector2(1.0, 0.0), i as real), n as real))
  }

  /** UV i is (i / n, 0): the first is the origin and every one lies in [0, 1). */
  lemma TemplateUVAt(n: nat, i: nat)
    requires i < n
    ensures TemplateUVs(n)[i] == Vector2(Quot(i as real, n as real), 0.0)
    ensures 0.0 <= TemplateUVs(n)[i].x < 1.0
    ensures i == 0 ==> TemplateUVs(n)[i] == Vector2(0.0, 0.0)
  {
    if i > 0 {
      QuotBelowOne(i as real, n as real);
    }
  }

  /** The UVs increase with the vertex index, so no two vertices share one. */
  lemma TemplateUVsIncrease(n: nat, i: nat, j: nat)
    requires i < j < n
    ensures TemplateUVs(n)[i].x < TemplateUVs(n)[j].x
  {
    QuotMonotone(i as real, j as real, n as real);
  }

  class SkinnerTemplate {
    var vertexCount: int
    var mesh: Option<TemplateMesh>

    constructor ()
      ensures vertexCount == 0 && mesh == None
    {
      vertexCount := 0;
      mesh := None;
    }

    /**
     * Initialize(source): stores the unique vertices with their bone weights, their UVs and the
     * identity index list, and the vertex count; an out-of-range bone-weight read leaves both
     * fields as they were.
     */
    method Initialize(source: SourceMesh) returns (r: Result<(), InitError>)
      modifies this
      ensures r.Ok? <==> WeightsCover(source)
      ensures r.Err? ==> vertexCount == old(vertexCount) && mesh == old(mesh)
      ensures r.Ok? ==>
        var first := FirstIndices(source.vertices, |source.vertices|);
        var n := |first|;
        && vertexCount == n <= |source.vertices|
        && mesh == Some(TemplateMesh(
             Unique(source.vertices), TemplateUVs(n), Select(first, source.boneWeights), Range(0, n)))
    {
      var lists := ExtractUnique(source);
      if lists.Err? {
        return Err(lists.error);
      }
      var u := lists.value;
      var n := |u.vertices|;
      mesh := Some(TemplateMesh(u.vertices, TemplateUVs(n), u.boneWeights, Range(0, n)));
      vertexCount := n;
      return Ok(());
    }
  }
}
