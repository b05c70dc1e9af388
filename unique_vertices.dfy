/**
 * The unique-vertex extraction shared by SkinnerModel and SkinnerTemplate: an input vertex is kept
 * when no vertex kept so far equals it, and every attribute list keeps the entry of the same input
 * index. The vertex comparison is exact equality of the vertices' components.
 */
module UniqueVertices {

  /** UnityEngine.BoneWeight: four bone indices and their weights. */
  datatype BoneWeight = BoneWeight(
    boneIndex0: int, boneIndex1: int, boneIndex2: int, boneIndex3: int,
    weight0: real, weight1: real, weight2: real, weight3: real)

  /** An attribute list shorter than the vertex list is indexed out of range. */
  datatype InitError = IndexOutOfRange

  /**
   * The indices i < n at which s holds an element that does not occur before i — the first
   * occurrences — in increasing order.
   */
  function FirstIndices<T(==)>(s: seq<T>, n: nat): (r: seq<nat>)
    requires n <= |s|
    ensures |r| <= n
    ensures forall k :: 0 <= k < |r| ==> r[k] < n
  {
    if n == 0 then [] else FirstIndices(s, n - 1) + (if s[n - 1] in s[..n - 1] then [] else [n - 1])
  }

  /** Every index of idx is an index of a list of length `len`. */
  predicate InRange(idx: seq<nat>, len: nat)
  {
    forall k :: 0 <= k < |idx| ==> idx[k] < len
  }

  /** The entries of a at the indices idx, in the order of idx. */
  function Select<T>(idx: seq<nat>, a: seq<T>): (r: seq<T>)
    requires InRange(idx, |a|)
    ensures |r| == |idx|
    ensures forall k :: 0 <= k < |idx| ==> r[k] == a[idx[k]]
  {
    seq(|idx|, k requires 0 <= k < |idx| => a[idx[k]])
  }

  /** The unique vertices of s: its first occurrences, in input order. */
  function Unique<T(==)>(s: seq<T>): seq<T>
  {
    Select(FirstIndices(s, |s|), s)
  }

  /** Taking the next index appends that index's entry. */
  lemma SelectAppend<T>(idx: seq<nat>, a: seq<T>, i: nat)
    requires InRange(idx, |a|) && i < |a|
    ensures InRange(idx + [i], |a|)
    ensures Select(idx + [i], a) == Select(idx, a) + [a[i]]
  {
  }

  /** i is listed exactly when it is below n and s[i] occurs nowhere before i. */
  lemma {:induction false} FirstIndicesExactly<T>(s: seq<T>, n: nat, i: nat)
    requires n <= |s|
    ensures i in FirstIndices(s, n) <==> i < n && s[i] !in s[..i]
  {
    if n > 0 {
      FirstIndicesExactly(s, n - 1, i);
    }
  }

  /** The first indices increase strictly. */
  lemma {:induction false} FirstIndicesIncrease<T>(s: seq<T>, n: nat)
    requires n <= |s|
    ensures forall a, b :: 0 <= a < b < |FirstIndices(s, n)| ==> FirstIndices(s, n)[a] < FirstIndices(s, n)[b]
  {
    if n > 0 {
      FirstIndicesIncrease(s, n - 1);
    }
  }

  /** The kept elements of the first n are exactly the elements that occur among the first n. */
  lemma {:induction false} FirstIndicesCover<T>(s: seq<T>, n: nat)
    requires n <= |s|
    ensures forall v :: v in Select(FirstIndices(s, n), s) <==> v in s[..n]
  {
    if n > 0 {
      FirstIndicesCover(s, n - 1);
      var prev := FirstIndices(s, n - 1);
      assert s[..n] == s[..n - 1] + [s[n - 1]];
      if s[n - 1] in s[..n - 1] {
        assert FirstIndices(s, n) == prev;
      } else {
        assert FirstIndices(s, n) == prev + [n - 1];
        SelectAppend(prev, s, n - 1);
      }
    }
  }

  /** No element is kept twice. */
  lemma NoDuplicates<T>(s: seq<T>)
    ensures forall a, b :: 0 <= a < b < |Unique(s)| ==> Unique(s)[a] != Unique(s)[b]
  {
    var idx := FirstIndices(s, |s|);
    FirstIndicesIncrease(s, |s|);
    forall a, b | 0 <= a < b < |idx|
      ensures s[idx[a]] != s[idx[b]]
    {
      FirstIndicesExactly(s, |s|, idx[b]);
      assert s[idx[a]] == s[..idx[b]][idx[a]];
    }
  }

  /** Every input element is kept, and nothing else is. */
  lemma UniqueCovers<T>(s: seq<T>)
    ensures forall v :: v in Unique(s) <==> v in s
    ensures |Unique(s)| <= |s|
  {
    FirstIndicesCover(s, |s|);
    assert s[..|s|] == s;
  }

  /** Kept element k is input element FirstIndices(s, |s|)[k], which occurs nowhere before it. */
  lemma UniqueAreFirst<T>(s: seq<T>, k: nat)
    requires k < |Unique(s)|
    ensures FirstIndices(s, |s|)[k] < |s| && Unique(s)[k] == s[FirstIndices(s, |s|)[k]]
    ensures forall j :: 0 <= j < FirstIndices(s, |s|)[k] ==> s[j] != Unique(s)[k]
  {
    var i := FirstIndices(s, |s|)[k];
    FirstIndicesExactly(s, |s|, i);
    assert forall j :: 0 <= j < i ==> s[j] == s[..i][j];
  }
}
