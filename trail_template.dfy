/**
 * Skinner's SkinnerTrailTemplate: a strip mesh of `lineCount` trail lines, each made of
 * `historyLength` segments with two vertices per segment and two triangles joining every pair of
 * consecutive segments. The mesh is modelled by the vertex and index lists RebuildMesh builds.
 */
module TrailTemplate {
  import opened Wrappers
  import opened CSharpInt
  import opened Vectors

  /** Products grow with their left factor. */
  lemma MulMono(a: nat, b: nat, c: nat)
    requires a <= b
    ensures a * c <= b * c
  {
  }

  /** Every entry of an index list names one of `count` vertices. */
  predicate IndicesBelow(ix: seq<int>, count: int)
  {
    forall p :: 0 <= p < |ix| ==> 0 <= ix[p] < count
  }

  /** `lineCount`: `0xffff / (2 * historyLength)`, on C# `int`s; a zero divisor throws. */
  function LineCount(h: int32): (r: Result<int32, ArithmeticError>)
    ensures r.Err? <==> Wrap(2 * h) == 0
    ensures 1 <= h <= 0x7fff ==> r.Ok? && 0 <= r.value && r.value * (2 * h) <= 0xffff < (r.value + 1) * (2 * h)
  {
    var d := Wrap(2 * h);
    if d == 0 then Err(DivideByZero)
    else
      DivNat(0xffff, Abs(d));
      Ok(TruncDiv(0xffff, d))
  }

  /** With the history length OnValidate allows, there is at least one line. */
  lemma LineCountPositive(h: int32)
    requires 4 <= h <= 512
    ensures LineCount(h).Ok? && 63 <= LineCount(h).value
  {
    var q := LineCount(h).value;
    MulMono(2 * h, 1024, q + 1);
    assert (2 * h) * (q + 1) == (q + 1) * (2 * h);
  }

  // ---------------------------------------------------------------------------------------
  // Vertices: for line L and segment s, (u, v) = ((L + 0.5) / lineCount, (s + 0.5) / history),
  // once with z = -0.5 and once with z = +0.5.

  function TrailVertex(line: int, seg: int, side: nat, lcount: int, h: int): Vector3
    requires lcount != 0 && h != 0
  {
    Vector3(Quot(line as real + 0.5, lcount as real), Quot(seg as real + 0.5, h as real), if side == 0 then -0.5 else 0.5)
  }

  /** The vertices of the first `segs` segments of one line. */
  function LineVertices(line: int, segs: nat, lcount: int, h: int): seq<Vector3>
    requires lcount != 0 && (segs > 0 ==> h != 0)
  {
    if segs == 0 then []
    else LineVertices(line, segs - 1, lcount, h) + [TrailVertex(line, segs - 1, 0, lcount, h), TrailVertex(line, segs - 1, 1, lcount, h)]
  }

  /** The vertex list after the first `n` lines. */
  function TrailVertices(n: nat, lcount: int, h: int): seq<Vector3>
    requires n > 0 ==> lcount != 0
  {
    if n == 0 then [] else TrailVertices(n - 1, lcount, h) + LineVertices(n - 1, if h < 0 then 0 else h, lcount, h)
  }

  lemma {:induction false} LineVerticesAt(line: int, segs: nat, lcount: int, h: int, seg: nat, side: nat)
    requires lcount != 0 && (segs > 0 ==> h != 0)
    requires seg < segs && side < 2
    ensures |LineVertices(line, segs, lcount, h)| == 2 * segs
    ensures LineVertices(line, segs, lcount, h)[2 * seg + side] == TrailVertex(line, seg, side, lcount, h)
  {
    if seg < segs - 1 {
      LineVerticesAt(line, segs - 1, lcount, h, seg, side);
    } else if segs > 1 {
      LineVerticesAt(line, segs - 1, lcount, h, 0, 0);
    }
  }

  lemma {:induction false} LineVerticesLength(line: int, segs: nat, lcount: int, h: int)
    requires lcount != 0 && (segs > 0 ==> h != 0)
    ensures |LineVertices(line, segs, lcount, h)| == 2 * segs
  {
    if segs > 0 {
      LineVerticesLength(line, segs - 1, lcount, h);
    }
  }

  /** The vertex list holds two vertices for every (line, segment) pair. */
  lemma TrailVerticesLength(n: nat, lcount: int, h: nat)
    requires n > 0 ==> lcount != 0
    ensures |TrailVertices(n, lcount, h)| == n * (2 * h)
  {
    TrailVerticesRunLength(n, lcount, h);
    LineStartIs(n, 2 * h);
  }

  /** The vertices of line L start at position `LineStart(L, 2 * history)`. */
  lemma TrailVertexRun(n: nat, lcount: int, h: nat, line: nat, seg: nat, side: nat)
    requires n > 0 ==> lcount != 0
    requires line < n && seg < h && side < 2
    ensures LineStart(line, 2 * h) + 2 * seg + side < |TrailVertices(n, lcount, h)|
    ensures TrailVertices(n, lcount, h)[LineStart(line, 2 * h) + 2 * seg + side] == TrailVertex(line, seg, side, lcount, h)
  {
    LineVerticesAt(line, h, lcount, h, seg, side);
    TrailVerticesLastLine(line, lcount, h, 2 * seg + side);
    TrailVerticesGrow(line + 1, n, lcount, h);
    PrefixAt(TrailVertices(line + 1, lcount, h), TrailVertices(n, lcount, h), LineStart(line, 2 * h) + 2 * seg + side);
  }

  /** The vertices of line L follow those of all earlier lines. */
  lemma TrailVerticesLastLine(line: nat, lcount: int, h: nat, i: nat)
    requires lcount != 0 && i < |LineVertices(line, h, lcount, h)|
    ensures LineStart(line, 2 * h) + i < |TrailVertices(line + 1, lcount, h)|
    ensures TrailVertices(line + 1, lcount, h)[LineStart(line, 2 * h) + i] == LineVertices(line, h, lcount, h)[i]
  {
    var prefix := TrailVertices(line, lcount, h);
    var last := LineVertices(line, h, lcount, h);
    assert TrailVertices(line + 1, lcount, h) == prefix + last;
    TrailVerticesRunLength(line, lcount, h);
    AppendAtOffset(prefix, last, LineStart(line, 2 * h), i);
  }

  /** Adding lines only appends: the vertex list after m lines is a prefix of that after n >= m. */
  lemma {:induction false} TrailVerticesGrow(m: nat, n: nat, lcount: int, h: nat)
    requires m <= n && (n > 0 ==> lcount != 0)
    ensures TrailVertices(m, lcount, h) <= TrailVertices(n, lcount, h)
  {
    if m < n {
      TrailVerticesGrow(m, n - 1, lcount, h);
      PrefixAppend(TrailVertices(m, lcount, h), TrailVertices(n - 1, lcount, h), LineVertices(n - 1, h, lcount, h));
    }
  }

  lemma {:induction false} TrailVerticesRunLength(n: nat, lcount: int, h: nat)
    requires n > 0 ==> lcount != 0
    ensures |TrailVertices(n, lcount, h)| == LineStart(n, 2 * h)
  {
    if n > 0 {
      TrailVerticesRunLength(n - 1, lcount, h);
      LineVerticesLength(n - 1, h, lcount, h);
    }
  }

  /** Vertex `L * 2 * history + 2 * s + side` is the side-`side` vertex of segment s of line L. */
  lemma TrailVertexAt(n: nat, lcount: int, h: nat, line: nat, seg: nat, side: nat)
    requires n > 0 ==> lcount != 0
    requires line < n && seg < h && side < 2
    ensures line * (2 * h) + 2 * seg + side < |TrailVertices(n, lcount, h)|
    ensures TrailVertices(n, lcount, h)[line * (2 * h) + 2 * seg + side] == TrailVertex(line, seg, side, lcount, h)
  {
    TrailVertexRun(n, lcount, h, line, seg, side);
    LineStartIs(line, 2 * h);
  }

  // ---------------------------------------------------------------------------------------
  // Indices: a segment starting at vertex vi joins it to the next segment by the triangles
  // (vi, vi + 2, vi + 1) and (vi + 1, vi + 2, vi + 3).

  /** The corners of the two triangles, relative to the segment's first vertex. */
  const QuadOffsets: seq<int> := [0, 2, 1, 1, 2, 3]

  function Quad(vi: int): (q: seq<int>)
    ensures |q| == 6
  {
    seq(6, k requires 0 <= k < 6 => vi + QuadOffsets[k])
  }

  /** The indices of the first `segs` segments of a line whose first vertex is `vi`. */
  function LineIndices(vi: int, segs: nat): seq<int>
  {
    if segs == 0 then [] else LineIndices(vi, segs - 1) + Quad(vi + 2 * (segs - 1))
  }

  /** The first vertex of line `line` when every line spans `stride` vertices: a running sum. */
  function LineStart(line: nat, stride: nat): nat
  {
    if line == 0 then 0 else LineStart(line - 1, stride) + stride
  }

  lemma {:induction false} LineStartIs(line: nat, stride: nat)
    ensures LineStart(line, stride) == line * stride
  {
    if line > 0 {
      LineStartIs(line - 1, stride);
      NextLine(line - 1, stride);
    }
  }

  lemma NextLine(line: nat, stride: nat)
    ensures (line + 1) * stride == line * stride + stride
  {
  }

  /** The index list after `n` lines of `segs` joined segments; each line spans `2 * segs + 2` vertices. */
  function TrailIndices(n: nat, segs: nat): seq<int>
  {
    if n == 0 then [] else TrailIndices(n - 1, segs) + LineIndices(LineStart(n - 1, 2 * segs + 2), segs)
  }

  lemma {:induction false} LineIndicesAt(vi: int, segs: nat, seg: nat, j: nat)
    requires seg < segs && j < 6
    ensures |LineIndices(vi, segs)| == 6 * segs
    ensures LineIndices(vi, segs)[6 * seg + j] == Quad(vi + 2 * seg)[j]
  {
    LineIndicesLength(vi, segs - 1);
    if seg < segs - 1 {
      LineIndicesAt(vi, segs - 1, seg, j);
    }
  }

  lemma {:induction false} LineIndicesLength(vi: int, segs: nat)
    ensures |LineIndices(vi, segs)| == 6 * segs
  {
    if segs > 0 {
      LineIndicesLength(vi, segs - 1);
    }
  }

  /** Six indices per joined pair of segments, line after line. */
  lemma {:induction false} TrailIndicesRunLength(n: nat, segs: nat)
    ensures |TrailIndices(n, segs)| == LineStart(n, 6 * segs)
  {
    if n > 0 {
      TrailIndicesRunLength(n - 1, segs);
      LineIndicesLength(LineStart(n - 1, 2 * segs + 2), segs);
    }
  }

  /** `lineCount * (historyLength - 1) * 6` indices in all. */
  lemma TrailIndicesLength(n: nat, segs: nat)
    ensures |TrailIndices(n, segs)| == n * (6 * segs)
  {
    TrailIndicesRunLength(n, segs);
    LineStartIs(n, 6 * segs);
  }

  /** Line L's indices start at position `LineStart(L, 6 * segs)` and are LineIndices of its first vertex. */
  lemma TrailIndexRun(n: nat, segs: nat, line: nat, i: nat)
    requires line < n && i < 6 * segs
    ensures |LineIndices(LineStart(line, 2 * segs + 2), segs)| == 6 * segs
    ensures LineStart(line, 6 * segs) + i < |TrailIndices(n, segs)|
    ensures TrailIndices(n, segs)[LineStart(line, 6 * segs) + i] == LineIndices(LineStart(line, 2 * segs + 2), segs)[i]
  {
    LineIndicesLength(LineStart(line, 2 * segs + 2), segs);
    TrailIndicesLastLine(line, segs, i);
    TrailIndicesGrow(line + 1, n, segs);
    PrefixAt(TrailIndices(line + 1, segs), TrailIndices(n, segs), LineStart(line, 6 * segs) + i);
  }

  /** Adding lines only appends: the index list after m lines is a prefix of that after n >= m. */
  lemma {:induction false} TrailIndicesGrow(m: nat, n: nat, segs: nat)
    requires m <= n
    ensures TrailIndices(m, segs) <= TrailIndices(n, segs)
  {
    if m < n {
      TrailIndicesGrow(m, n - 1, segs);
      PrefixAppend(TrailIndices(m, segs), TrailIndices(n - 1, segs), LineIndices(LineStart(n - 1, 2 * segs + 2), segs));
    }
  }

  /** The indices of line L follow those of all earlier lines. */
  lemma TrailIndicesLastLine(line: nat, segs: nat, i: nat)
    requires i < |LineIndices(LineStart(line, 2 * segs + 2), segs)|
    ensures LineStart(line, 6 * segs) + i < |TrailIndices(line + 1, segs)|
    ensures TrailIndices(line + 1, segs)[LineStart(line, 6 * segs) + i] == LineIndices(LineStart(line, 2 * segs + 2), segs)[i]
  {
    var prefix := TrailIndices(line, segs);
    var last := LineIndices(LineStart(line, 2 * segs + 2), segs);
    assert TrailIndices(line + 1, segs) == prefix + last;
    TrailIndicesRunLength(line, segs);
    AppendAtOffset(prefix, last, LineStart(line, 6 * segs), i);
  }

  /** Index `L * 6 * segs + 6 * s + j` is corner j of the two triangles of segment s of line L. */
  lemma TrailIndexAt(n: nat, segs: nat, line: nat, seg: nat, j: nat)
    requires line < n && seg < segs && j < 6
    ensures line * (6 * segs) + 6 * seg + j < |TrailIndices(n, segs)|
    ensures TrailIndices(n, segs)[line * (6 * segs) + 6 * seg + j] == Quad(line * (2 * segs + 2) + 2 * seg)[j]
  {
    TrailIndexRun(n, segs, line, 6 * seg + j);
    LineIndicesAt(LineStart(line, 2 * segs + 2), segs, seg, j);
    LineStartIs(line, 6 * segs);
    LineStartIs(line, 2 * segs + 2);
  }

  /**
   * The corners of segment s of line L refer to vertices of line L alone: all lie in
   * [L * stride, (L + 1) * stride), where stride = 2 * segs + 2 vertices make up one line.
   */
  lemma QuadInLine(segs: nat, line: nat, seg: nat, j: nat)
    requires seg < segs && j < 6
    ensures line * (2 * segs + 2) <= Quad(line * (2 * segs + 2) + 2 * seg)[j] < (line + 1) * (2 * segs + 2)
  {
    NextLine(line, 2 * segs + 2);
  }

  /** Every index refers to an existing vertex: all lie in [0, LineStart(n, stride)). */
  lemma {:induction false} TrailIndicesRunBounded(n: nat, segs: nat)
    ensures IndicesBelow(TrailIndices(n, segs), LineStart(n, 2 * segs + 2))
  {
    if n > 0 {
      TrailIndicesRunBounded(n - 1, segs);
      var base := LineStart(n - 1, 2 * segs + 2);
      LineIndicesBounded(base, segs);
      var prefix := TrailIndices(n - 1, segs);
      forall p | 0 <= p < |TrailIndices(n, segs)|
        ensures 0 <= TrailIndices(n, segs)[p] < LineStart(n, 2 * segs + 2)
      {
        if p < |prefix| {
          assert TrailIndices(n, segs)[p] == prefix[p];
        } else {
          assert TrailIndices(n, segs)[p] == LineIndices(base, segs)[p - |prefix|];
        }
      }
    }
  }

  lemma TrailIndicesBounded(n: nat, segs: nat)
    ensures IndicesBelow(TrailIndices(n, segs), n * (2 * segs + 2))
  {
    TrailIndicesRunBounded(n, segs);
    LineStartIs(n, 2 * segs + 2);
  }

  lemma {:induction false} LineIndicesBounded(vi: int, segs: nat)
    ensures forall p :: 0 <= p < |LineIndices(vi, segs)| ==> vi <= LineIndices(vi, segs)[p] < vi + 2 * segs + 2
  {
    if segs > 0 {
      LineIndicesBounded(vi, segs - 1);
      LineIndicesLength(vi, segs - 1);
    }
  }

  /** Concatenation regroups freely. */
  lemma AppendAtOffset<T>(a: seq<T>, b: seq<T>, p: nat, i: nat)
    requires |a| == p && i < |b|
    ensures p + i < |a + b| && (a + b)[p + i] == b[i]
  {
  }

  lemma PrefixAt<T>(a: seq<T>, b: seq<T>, k: nat)
    requires a <= b && k < |a|
    ensures k < |b| && b[k] == a[k]
  {
  }

  lemma PrefixAppend<T>(a: seq<T>, b: seq<T>, c: seq<T>)
    requires a <= b
    ensures a <= b + c
  {
    assert (b + c)[..|a|] == a;
  }

  lemma AppendAssoc<T>(a: seq<T>, b: seq<T>, c: seq<T>)
    ensures (a + b) + c == a + (b + c)
  {
  }

  // ---------------------------------------------------------------------------------------
  // The builders: the two nested loops of RebuildMesh.

  /** The vertex loop: `lcount` lines of `h` segments, two vertices each. */
  method BuildVertices(lcount: int, h: int) returns (vs: seq<Vector3>)
    ensures vs == TrailVertices(if lcount < 0 then 0 else lcount, lcount, h)
  {
    vs := [];
    var line := 0;
    while line < lcount
      invariant 0 <= line <= if lcount < 0 then 0 else lcount
      invariant vs == TrailVertices(line, lcount, h)
    {
      ghost var before := vs;
      var seg := 0;
      while seg < h
        invariant 0 <= seg <= if h < 0 then 0 else h
        invariant vs == before + LineVertices(line, seg, lcount, h)
      {
        var pair := [TrailVertex(line, seg, 0, lcount, h), TrailVertex(line, seg, 1, lcount, h)];
        AppendAssoc(before, LineVertices(line, seg, lcount, h), pair);
        vs := vs + pair;
        seg := seg + 1;
      }
      assert seg == if h < 0 then 0 else h;
      assert vs == TrailVertices(line + 1, lcount, h);
      line := line + 1;
    }
    assert line == if lcount < 0 then 0 else lcount;
  }

  /** The index loop: for each line, `h - 1` joined segments, then the cursor skips the last pair. */
  method BuildIndices(lcount: int, h: int) returns (ix: seq<int>)
    ensures ix == TrailIndices(if lcount < 0 then 0 else lcount, if h < 1 then 0 else h - 1)
  {
    var segs: nat := if h < 1 then 0 else h - 1;
    ix := [];
    var vi := 0;
    var line := 0;
    while line < lcount
      invariant 0 <= line <= if lcount < 0 then 0 else lcount
      invariant vi == LineStart(line, 2 * segs + 2)
      invariant ix == TrailIndices(line, segs)
    {
      ghost var before := ix;
      var seg := 0;
      while seg < h - 1
        invariant 0 <= seg <= segs
        invariant vi == LineStart(line, 2 * segs + 2) + 2 * seg
        invariant ix == before + LineIndices(LineStart(line, 2 * segs + 2), seg)
      {
        var quad := [vi + 0, vi + 2, vi + 1, vi + 1, vi + 2, vi + 3];
        AppendAssoc(before, LineIndices(LineStart(line, 2 * segs + 2), seg), quad);
        ix := ix + quad;
        vi := vi + 2;
        seg := seg + 1;
      }
      assert seg == segs;
      assert ix == TrailIndices(line + 1, segs);
      vi := vi + 2;
      line := line + 1;
    }
    assert line == if lcount < 0 then 0 else lcount;
  }

  // ---------------------------------------------------------------------------------------
  // The asset.

  class SkinnerTrailTemplate {
    var historyLength: int32
    var vertices: seq<Vector3>
    var indices: seq<int>

    /** A new asset: a history of 32 frames and an empty mesh. */
    constructor ()
      ensures historyLength == 32 && vertices == [] && indices == []
    {
      historyLength := 32;
      vertices := [];
      indices := [];
    }

    /** OnValidate(): clamps the history length into [4, 512]. */
    method OnValidate()
      modifies this
      ensures historyLength == Clamp(old(historyLength), 4, 512)
      ensures 4 <= historyLength <= 512
      ensures vertices == old(vertices) && indices == old(indices)
    {
      historyLength := Clamp(historyLength, 4, 512);
    }

    /**
     * RebuildMesh(): clears the mesh and fills it with the trail strips; when `lineCount` throws,
     * the mesh stays cleared.
     */
    method RebuildMesh() returns (r: Result<int32, ArithmeticError>)
      modifies this
      ensures historyLength == old(historyLength)
      ensures r == LineCount(historyLength)
      ensures r.Err? ==> vertices == [] && indices == []
      ensures r.Ok? ==> var lcount := if r.value < 0 then 0 else r.value;
        && vertices == TrailVertices(lcount, r.value, historyLength)
        && indices == TrailIndices(lcount, if historyLength < 1 then 0 else historyLength - 1)
    {
      vertices, indices := [], [];
      r := LineCount(historyLength);
      if r.Err? {
        return;
      }
      var lcount := r.value;
      vertices := BuildVertices(lcount, historyLength);
      indices := BuildIndices(lcount, historyLength);
    }
  }

  /**
   * With a clamped history the mesh fits 16-bit indexing: at most 0xffff vertices, of which every
   * index names one.
   */
  lemma ClampedMeshFits(h: int32)
    requires 4 <= h <= 512
    ensures LineCount(h).Ok?
    ensures var n := LineCount(h).value;
      && n >= 1
      && |TrailVertices(n, n, h)| == n * (2 * h) <= 0xffff
      && |TrailIndices(n, h - 1)| == n * ((h - 1) * 6)
      && IndicesBelow(TrailIndices(n, h - 1), |TrailVertices(n, n, h)|)
  {
    LineCountPositive(h);
    var n := LineCount(h).value;
    TrailVerticesLength(n, n, h);
    TrailIndicesLength(n, h - 1);
    TrailIndicesBounded(n, h - 1);
    assert 2 * (h - 1) + 2 == 2 * h;
    assert 6 * (h - 1) == (h - 1) * 6;
  }
}
