/**
 * C#'s 32-bit signed integer arithmetic, written out over Dafny's unbounded `int`:
 * unchecked wrap-around, the truncating remainder operator and Mathf.Clamp.
 */
module CSharpInt {

  const MinInt32: int := -0x8000_0000
  const MaxInt32: int := 0x7fff_ffff
  const TwoTo32: int := 0x1_0000_0000

  /** The values of C#'s `int`. */
  type int32 = x: int | MinInt32 <= x <= MaxInt32

  /**
   * The exceptions C#'s integer `/` and `%` raise: DivideByZeroException for a zero divisor, and
   * OverflowException for `int.MinValue` divided by -1, whose quotient does not fit an `int`
   * (the runtime raises it for the remainder as well).
   */
  datatype ArithmeticError = DivideByZero | Overflow

  function Abs(x: int): (r: nat)
    ensures r == x || r == -x
  {
    if x < 0 then -x else x
  }

  /** Unchecked two's-complement narrowing of an exact result to `int`. */
  function Wrap(x: int): (r: int32)
    ensures (x - r) % TwoTo32 == 0
    ensures MinInt32 <= x <= MaxInt32 ==> r == x
  {
    var m := x % TwoTo32;
    if m <= MaxInt32 then m else m - TwoTo32
  }

  /** Euclidean division and remainder of naturals, the building blocks of C#'s operators. */
  lemma DivNat(n: nat, m: nat)
    requires m > 0
    ensures 0 <= n / m
    ensures 0 <= n % m < m
    ensures (n / m) * m + n % m == n
    ensures n % m <= n
    ensures n / m <= n
  {
  }

  /** C#'s `a / b` on integers, which truncates toward zero. */
  function TruncDiv(a: int, b: int): (q: int)
    requires b != 0
    ensures Abs(q) == Abs(a) / Abs(b)
    ensures (0 <= a) == (0 < b) ==> 0 <= q
    ensures (0 <= a) != (0 < b) ==> q <= 0
  {
    DivNat(Abs(a), Abs(b));
    var k := Abs(a) / Abs(b);
    if (0 <= a) == (0 < b) then k else -k
  }

  /**
   * C#'s `a % b`, defined by the language as `a - (a / b) * b` with the truncating
   * division: its sign follows the dividend and its magnitude is below the divisor's.
   */
  function TruncRem(a: int, b: int): (r: int)
    requires b != 0
    ensures r == a - TruncDiv(a, b) * b
    ensures Abs(r) < Abs(b)
    ensures Abs(r) <= Abs(a)
    ensures 0 <= a ==> 0 <= r
    ensures a <= 0 ==> r <= 0
  {
    var n := Abs(a);
    var m := Abs(b);
    DivNat(n, m);
    TruncDivTimes(a, b);
    if 0 <= a then n % m else -(n % m)
  }

  /** `(a / b) * b` is the multiple of `|b|` that `|a|` rounds down to, carrying the sign of `a`. */
  lemma TruncDivTimes(a: int, b: int)
    requires b != 0
    ensures TruncDiv(a, b) * b == if 0 <= a then (Abs(a) / Abs(b)) * Abs(b) else -((Abs(a) / Abs(b)) * Abs(b))
  {
    var k := Abs(a) / Abs(b);
    if 0 <= a && 0 < b {
      assert TruncDiv(a, b) == k && Abs(b) == b;
    } else if 0 <= a {
      assert TruncDiv(a, b) == -k && Abs(b) == -b;
      assert (-k) * b == k * (-b);
    } else if 0 < b {
      assert TruncDiv(a, b) == -k && Abs(b) == b;
      assert (-k) * b == -(k * b);
    } else {
      assert TruncDiv(a, b) == k && Abs(b) == -b;
      assert k * b == -(k * (-b));
    }
  }

  /** Mathf.Clamp on integers. */
  function Clamp(value: int, min: int, max: int): (r: int)
    ensures min <= max ==> min <= r <= max
    ensures min <= value <= max ==> r == value
    ensures value < min ==> r == min
    ensures min <= max < value ==> r == max
  {
    if value < min then min else if value > max then max else value
  }
}
