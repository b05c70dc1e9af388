/** The LINQ helpers the mesh builders use on index and UV lists. */
module Linq {

  /** Enumerable.Range(start, count): the integers start, start + 1, ..., start + count - 1. */
  function Range(start: int, count: nat): (r: seq<int>)
    ensures |r| == count
    ensures forall i :: 0 <= i < count ==> r[i] == start + i
  {
    seq(count, i => start + i)
  }

  /** Enumerable.Repeat(x, count): `count` copies of x. */
  function Repeat<T>(x: T, count: nat): (r: seq<T>)
    ensures |r| == count
    ensures forall i :: 0 <= i < count ==> r[i] == x
  {
    seq(count, _ => x)
  }

  /**
   * The pieces of items 0 .. n - 1, joined in order: `Range(0, n).SelectMany(piece)`, and what a
   * loop doing one AddRange per item builds.
   */
  function Concat<T>(piece: nat -> seq<T>, n: nat): seq<T>
  {
    if n == 0 then [] else Concat(piece, n - 1) + piece(n - 1)
  }

  /** One more item appends its piece. */
  lemma ConcatStep<T>(piece: nat -> seq<T>, n: nat)
    ensures Concat(piece, n + 1) == Concat(piece, n) + piece(n)
  {
  }

  /** Adding items only appends. */
  lemma {:induction false} ConcatGrow<T>(piece: nat -> seq<T>, m: nat, n: nat)
    requires m <= n
    ensures Concat(piece, m) <= Concat(piece, n)
  {
    if m < n {
      ConcatGrow(piece, m, n - 1);
      var a, b, c := Concat(piece, m), Concat(piece, n - 1), piece(n - 1);
      assert (b + c)[..|a|] == a;
    }
  }

  /** Item k's piece sits right after those of items 0 .. k - 1. */
  lemma ConcatAt<T>(piece: nat -> seq<T>, n: nat, k: nat, i: nat)
    requires k < n && i < |piece(k)|
    ensures |Concat(piece, k)| + i < |Concat(piece, n)|
    ensures Concat(piece, n)[|Concat(piece, k)| + i] == piece(k)[i]
  {
    var a, b := Concat(piece, k), piece(k);
    ConcatStep(piece, k);
    assert (a + b)[|a| + i] == b[i];
    ConcatGrow(piece, k + 1, n);
  }

  /** Every element of the joined list comes from the piece of some item. */
  lemma {:induction false} ConcatFrom<T>(piece: nat -> seq<T>, n: nat, j: nat)
    requires j < |Concat(piece, n)|
    ensures exists k: nat, i: nat :: k < n && i < |piece(k)| && Concat(piece, n)[j] == piece(k)[i]
  {
    var a, b := Concat(piece, n - 1), piece(n - 1);
    assert Concat(piece, n) == a + b;
    if j < |a| {
      ConcatFrom(piece, n - 1, j);
      assert (a + b)[j] == a[j];
    } else {
      assert (a + b)[j] == b[j - |a|];
    }
  }
}
