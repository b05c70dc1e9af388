/**
 * Klak's XXHash: the xxHash32 algorithm specialised to one 32-bit integer key, plus the range
 * helpers built on it and the counter-driven RandomHash factory.
 * All hash arithmetic is on `bv32`, so it wraps modulo 2^32 exactly like C#'s `uint`.
 */
module Hashing {
  import opened CSharpInt
  import opened Wrappers
  import Vectors

  const PRIME32_1: bv32 := 2654435761
  const PRIME32_2: bv32 := 2246822519
  const PRIME32_3: bv32 := 3266489917
  const PRIME32_4: bv32 := 668265263
  const PRIME32_5: bv32 := 374761393

  /**
   * `uint` multiplication, which wraps modulo 2^32 like `bv32` multiplication. It is kept as a
   * function so that the solver compares products by their operands instead of bit by bit.
   */
  function Mul(x: bv32, k: bv32): bv32
  {
    x * k
  }

  /**
   * A C# `int` that the hash only ever reads through `(uint)` (keys, seeds, the RandomHash
   * counter) is modelled by its 32-bit pattern, a `bv32`; `(uint)` is then the identity and
   * unchecked `int` increments are `bv32` additions.
   */
  type IntBits = bv32

  /** The unchecked cast `(int)h`: reinterprets the bit pattern as a signed value. */
  function ToInt(h: bv32): (r: int32)
    ensures 0 <= r ==> r == h as int
    ensures r < 0 ==> r == h as int - 0x1_0000_0000
  {
    var n := h as int;
    assert 0 <= n < 0x1_0000_0000;
    if n <= 0x7fff_ffff then n else n - 0x1_0000_0000
  }

  /**
   * rotl32 as written: `(x << r) | (x >> 32 - r)`. C# masks both shift counts to their low five
   * bits, so the count is taken as the bit pattern of `r` and masked with `& 31`.
   */
  function Rotl32(x: bv32, r: bv32): bv32
  {
    (x << (r & 31)) | (x >> ((32 - r) & 31))
  }

  /** With the count the hash uses, rotl32 is the bit rotation built into `bv32`. */
  lemma Rotl32By17(x: bv32)
    ensures Rotl32(x, 17) == x.RotateLeft(17)
  {
  }

  /** For every count strictly between 0 and 32, rotating by r and then by 32 - r gives back the word. */
  lemma Rotl32Inverse(x: bv32, r: bv32)
    requires 0 < r < 32
    ensures Rotl32(Rotl32(x, r), 32 - r) == x
  {
  }

  /** The static GetHash(data, seed), on the bit patterns of both arguments. */
  function GetHash(d: IntBits, s: IntBits): bv32
  {
    var h0 := s + PRIME32_5;
    var h1 := h0 + 4;
    var h2 := h1 + Mul(d, PRIME32_3);
    var h3 := Mul(Rotl32(h2, 17), PRIME32_4);
    var h4 := h3 ^ (h3 >> 15);
    var h5 := Mul(h4, PRIME32_2);
    var h6 := h5 ^ (h5 >> 13);
    var h7 := Mul(h6, PRIME32_3);
    h7 ^ (h7 >> 16)
  }

  // ---------------------------------------------------------------------------------------
  // Reference: XXH32 as the xxHash specification defines it for inputs shorter than 16 bytes
  // (no stripes: seed + PRIME32_5, add the input length, consume the remaining input, avalanche).

  /** The 4-byte little-endian encoding of a 32-bit word. */
  function EncodeLE32(x: bv32): (b: seq<bv8>)
    ensures |b| == 4
  {
    [(x & 0xff) as bv8, ((x >> 8) & 0xff) as bv8, ((x >> 16) & 0xff) as bv8, ((x >> 24) & 0xff) as bv8]
  }

  /** Reads a little-endian 32-bit lane. */
  function ReadLE32(b: seq<bv8>): bv32
    requires |b| >= 4
  {
    (b[0] as bv32) | ((b[1] as bv32) << 8) | ((b[2] as bv32) << 16) | ((b[3] as bv32) << 24)
  }

  lemma ReadEncodeLE32(x: bv32)
    ensures ReadLE32(EncodeLE32(x)) == x
  {
  }

  /** One 4-byte lane: `acc = rotl(acc + lane * PRIME32_3, 17) * PRIME32_4`. */
  function LaneStep(acc: bv32, lane: bv32): bv32
  {
    Mul((acc + Mul(lane, PRIME32_3)).RotateLeft(17), PRIME32_4)
  }

  /** One trailing byte: `acc = rotl(acc + byte * PRIME32_5, 11) * PRIME32_1`. */
  function ByteStep(acc: bv32, b: bv8): bv32
  {
    Mul((acc + Mul(b as bv32, PRIME32_5)).RotateLeft(11), PRIME32_1)
  }

  /** Consumes the input: 4-byte lanes first, then single bytes. */
  function ConsumeRemaining(acc: bv32, rest: seq<bv8>): bv32
    decreases |rest|
  {
    if |rest| >= 4 then ConsumeRemaining(LaneStep(acc, ReadLE32(rest)), rest[4..])
    else if |rest| >= 1 then ConsumeRemaining(ByteStep(acc, rest[0]), rest[1..])
    else acc
  }

  /** The final mix (avalanche). */
  function Avalanche(acc: bv32): bv32
  {
    var a1 := acc ^ (acc >> 15);
    var a2 := Mul(a1, PRIME32_2);
    var a3 := a2 ^ (a2 >> 13);
    var a4 := Mul(a3, PRIME32_3);
    a4 ^ (a4 >> 16)
  }

  /** An input length as a 32-bit word, counted up without an integer-to-bit-vector cast. */
  function LengthWord(n: nat): bv32
  {
    if n == 0 then 0 else LengthWord(n - 1) + 1
  }

  /** XXH32 of an input shorter than one 16-byte stripe. */
  function XXH32Short(input: seq<bv8>, seed: bv32): bv32
    requires |input| < 16
  {
    Avalanche(ConsumeRemaining(seed + PRIME32_5 + LengthWord(|input|), input))
  }

  /** GetHash(data, seed) is XXH32 of the 4-byte little-endian encoding of `data`, seeded with `seed`. */
  lemma GetHashIsXXH32(d: IntBits, s: IntBits)
    ensures GetHash(d, s) == XXH32Short(EncodeLE32(d), s)
  {
    ReferenceOneLane(d, s);
    GetHashOneLane(d, s);
  }

  /** The reference consumes a 4-byte input as one lane, after adding the length 4. */
  lemma ReferenceOneLane(d: bv32, s: bv32)
    ensures XXH32Short(EncodeLE32(d), s) == Avalanche(LaneStep(s + PRIME32_5 + 4, d))
  {
    ShortFour(EncodeLE32(d), s);
    LaneOfEncoding(d, s + PRIME32_5 + 4);
  }

  lemma ShortFour(input: seq<bv8>, s: bv32)
    requires |input| == 4
    ensures XXH32Short(input, s) == Avalanche(ConsumeRemaining(s + PRIME32_5 + 4, input))
  {
    assert LengthWord(4) == 4;
  }

  lemma LaneOfEncoding(d: bv32, acc: bv32)
    ensures ConsumeRemaining(acc, EncodeLE32(d)) == LaneStep(acc, d)
  {
    var input := EncodeLE32(d);
    assert input[4..] == [];
    ReadEncodeLE32(d);
  }

  /** GetHash's body is the same lane round followed by the same avalanche. */
  lemma GetHashOneLane(d: bv32, s: bv32)
    ensures GetHash(d, s) == Avalanche(LaneStep(s + PRIME32_5 + 4, d))
  {
    GetHashSteps(d, s);
    LaneIsRotl32(s + PRIME32_5 + 4, d);
  }

  lemma GetHashSteps(d: bv32, s: bv32)
    ensures GetHash(d, s) == Avalanche(Mul(Rotl32(s + PRIME32_5 + 4 + Mul(d, PRIME32_3), 17), PRIME32_4))
  {
  }

  lemma LaneIsRotl32(acc: bv32, d: bv32)
    ensures LaneStep(acc, d) == Mul(Rotl32(acc + Mul(d, PRIME32_3), 17), PRIME32_4)
  {
    Rotl32By17(acc + Mul(d, PRIME32_3));
  }

  // ---------------------------------------------------------------------------------------
  // The XXHash struct: a seed and the helpers that map its hash into ranges.

  datatype XXHash = XXHash(seed: IntBits)

  /** The unsigned reading of a bit pattern determines it. */
  lemma AsIntInjective(h1: bv32, h2: bv32)
    requires h1 as int == h2 as int
    ensures h1 == h2
  {
    var n := h1 as int;
    assert 0 <= n < 0x1_0000_0000;
    assert n as bv32 == h1;
    assert n as bv32 == h2;
  }

  /** So does the signed reading: `(int)` is a bijection from `uint` onto `int`. */
  lemma ToIntInjective(h1: bv32, h2: bv32)
    requires ToInt(h1) == ToInt(h2)
    ensures h1 == h2
  {
    AsIntInjective(h1, h2);
  }

  /** The instance GetHash(data): XXH32 of the key's little-endian bytes, seeded with the stored seed. */
  function InstanceHash(h: XXHash, data: IntBits): (r: bv32)
    ensures r == XXH32Short(EncodeLE32(data), h.seed)
  {
    GetHashIsXXH32(data, h.seed);
    GetHash(data, h.seed)
  }

  /** `(int)GetHash(data)`, the signed reading of the hash that the integer ranges start from. */
  function SignedHash(h: XXHash, data: IntBits): int32
  {
    ToInt(InstanceHash(h, data))
  }

  /**
   * `s % max` on C# `int`s, which throws DivideByZeroException when `max` is 0 and
   * OverflowException for `int.MinValue % -1`.
   */
  function Remainder(s: int32, max: int32): (r: Result<int32, ArithmeticError>)
    ensures r == Err(DivideByZero) <==> max == 0
    ensures r == Err(Overflow) <==> s == MinInt32 && max == -1
    ensures r.Ok? ==>
      && Abs(r.value) < Abs(max)
      && (0 <= s ==> 0 <= r.value)
      && (s <= 0 ==> r.value <= 0)
      && r.value == s - TruncDiv(s, max) * max
  {
    if max == 0 then Err(DivideByZero)
    else if s == MinInt32 && max == -1 then Err(Overflow)
    else Ok(TruncRem(s, max))
  }

  /** Range(max, data): `(int)GetHash(data) % max`. */
  function Range(h: XXHash, max: int32, data: IntBits): (r: Result<int32, ArithmeticError>)
    ensures r == Err(DivideByZero) <==> max == 0
    ensures r == Err(Overflow) <==> SignedHash(h, data) == MinInt32 && max == -1
    ensures r.Ok? ==> Abs(r.value) < Abs(max) && (0 <= SignedHash(h, data) ==> 0 <= r.value)
  {
    Remainder(SignedHash(h, data), max)
  }

  /**
   * `s % (max - min) + min` on C# `int`s: both the subtraction and the addition wrap around as
   * unchecked arithmetic does; the remainder throws DivideByZeroException when the wrapped
   * difference is 0, and OverflowException when it is -1 and `s` is `int.MinValue`. The wrapped
   * difference is -1 for `max == min - 1`, and also for `min == int.MinValue, max == int.MaxValue`.
   */
  function OffsetRemainder(s: int32, min: int32, max: int32): (r: Result<int32, ArithmeticError>)
    ensures r == Err(DivideByZero) <==> min == max
    ensures r == Err(Overflow) <==>
      s == MinInt32 && (max - min == -1 || (min == MinInt32 && max == MaxInt32))
  {
    var d := Wrap(max - min);
    assert d == -1 <==> max - min == -1 || max - min == TwoTo32 - 1;
    if d == 0 then Err(DivideByZero)
    else if s == MinInt32 && d == -1 then Err(Overflow)
    else Ok(Wrap(TruncRem(s, d) + min))
  }

  /**
   * When `max - min` is positive and does not overflow, the offset remainder lies in [min, max)
   * for a non-negative `s`, and in (2 * min - max, max) whenever that interval fits in an `int`.
   */
  lemma OffsetRemainderBounds(s: int32, min: int32, max: int32)
    requires min < max && max - min <= MaxInt32
    ensures OffsetRemainder(s, min, max).Ok?
    ensures 0 <= s ==> min <= OffsetRemainder(s, min, max).value < max
    ensures MinInt32 <= 2 * min - max ==> 2 * min - max < OffsetRemainder(s, min, max).value < max
  {
    var rem := TruncRem(s, max - min);
    assert Wrap(max - min) == max - min;
    assert -(max - min) < rem < max - min;
    assert MinInt32 <= 2 * min - max ==> Wrap(rem + min) == rem + min;
    assert 0 <= s ==> Wrap(rem + min) == rem + min;
  }

  /**
   * Range(min, max, data): `(int)GetHash(data) % (max - min) + min`. For an ordered pair whose
   * difference fits an `int` it never throws, and a non-negative signed hash lands in [min, max).
   */
  function RangeMinMax(h: XXHash, min: int32, max: int32, data: IntBits): (r: Result<int32, ArithmeticError>)
    ensures r == Err(DivideByZero) <==> min == max
    ensures min < max && max - min <= MaxInt32 ==> r.Ok?
    ensures min < max && max - min <= MaxInt32 && 0 <= SignedHash(h, data) ==> min <= r.value < max
  {
    var s := SignedHash(h, data);
    if min < max && max - min <= MaxInt32 then
      OffsetRemainderBounds(s, min, max);
      OffsetRemainder(s, min, max)
    else
      OffsetRemainder(s, min, max)
  }

  /** A hash word divided by uint.MaxValue. */
  function UnitValue(hash: bv32): (r: real)
    ensures 0.0 <= r <= 1.0
    ensures r == 0.0 <==> hash == 0
    ensures r == 1.0 <==> hash == 0xffff_ffff
  {
    (hash as int) as real / 4294967295.0
  }

  /** Value01(data): the hash divided by uint.MaxValue, from 0 for hash 0 to 1 for uint.MaxValue. */
  function Value01(h: XXHash, data: IntBits): (r: real)
    ensures 0.0 <= r <= 1.0
    ensures r == 0.0 <==> InstanceHash(h, data) == 0
    ensures r == 1.0 <==> InstanceHash(h, data) == 0xffff_ffff
  {
    UnitValue(InstanceHash(h, data))
  }

  /** `v * (max - min) + min`: for `v` in [0, 1] this stays between `min` and `max`. */
  function ScaleUnit(v: real, min: real, max: real): (r: real)
    requires 0.0 <= v <= 1.0
    ensures min <= max ==> min <= r <= max
    ensures max <= min ==> max <= r <= min
    ensures v == 0.0 ==> r == min
    ensures v == 1.0 ==> r == max
  {
    Vectors.LerpWithin(min, max, v);
    Vectors.Mix(min, max, v)
  }

  /** Range(min, max, data) over floats: Value01(data) * (max - min) + min. */
  function RangeFloat(h: XXHash, min: real, max: real, data: IntBits): (r: real)
    ensures min <= max ==> min <= r <= max
    ensures max <= min ==> max <= r <= min
  {
    ScaleUnit(Value01(h, data), min, max)
  }

  /**
   * The bit pattern of the C# counter after `n` unchecked increments from 0: the `int` wraps
   * around, so its pattern is `n` modulo 2^32.
   */
  function CounterBits(n: nat): IntBits
  {
    (n % 0x1_0000_0000) as bv32
  }

  /** The hash the `n`-th RandomHash access returns: `new XXHash((int)GetHash(0xcafe, _counter))`. */
  function RandomHashAt(n: nat): XXHash
  {
    XXHash(GetHash(0xcafe, CounterBits(n)))
  }

  /**
   * The process-wide `XXHash._counter`, made an explicit object. It is kept as the number of
   * RandomHash accesses so far; the C# `int` holds that count wrapped to 32 bits.
   */
  class HashCounter {
    var calls: nat

    constructor ()
      ensures calls == 0
    {
      calls := 0;
    }

    /** XXHash.RandomHash: the hash for the current count, which the access then advances. */
    method RandomHash() returns (h: XXHash)
      modifies this
      ensures calls == old(calls) + 1
      ensures h == RandomHashAt(old(calls))
    {
      h := RandomHashAt(calls);
      calls := calls + 1;
    }
  }
}
