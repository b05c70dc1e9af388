/**
 * Klak's NoiseGenerator: three hash lanes pick per-seed offsets into fractal Perlin noise, and a
 * phase `time` advances by `frequency * dt` each Step. Perlin.Fbm and Quaternion.Euler are not part
 * of this model and are passed in as `fbm` and `euler`; `Time.deltaTime` is the parameter `dt`.
 */
module Noise {
  import opened CSharpInt
  import opened Vectors
  import opened Hashing

  /** `_fbmNorm`: rescales fractal noise to roughly [-1, 1]. */
  const FbmNorm: real := 1.0 / 0.75

  /** The bit patterns that derive the second and third lane seeds from the first. */
  const Lane2Key: IntBits := 0x1327495a
  const Lane3Key: IntBits := 0x3cbe84f2

  /** `hash.Range(-100, 100, seed2)`: a lane's offset into the noise field. */
  function LaneOffset(h: XXHash, seed2: IntBits): (r: real)
    ensures -100.0 <= r <= 100.0
  {
    RangeFloat(h, -100.0, 100.0, seed2)
  }

  class NoiseGenerator {
    var hash1: XXHash
    var hash2: XXHash
    var hash3: XXHash
    var fractal: int32
    var frequency: real
    var time: real

    /** NoiseGenerator(seed, frequency): the lanes are `seed` and two fixed XORs of it. */
    constructor WithSeed(seed: IntBits, frequency: real)
      ensures hash1 == XXHash(seed)
      ensures hash2 == XXHash(seed ^ Lane2Key) && hash3 == XXHash(seed ^ Lane3Key)
      ensures hash1 != hash2 && hash1 != hash3 && hash2 != hash3
      ensures fractal == 2 && this.frequency == frequency && time == 0.0
    {
      hash1 := XXHash(seed);
      hash2 := XXHash(seed ^ Lane2Key);
      hash3 := XXHash(seed ^ Lane3Key);
      fractal := 2;
      this.frequency := frequency;
      time := 0.0;
    }

    /** NoiseGenerator(frequency): the lanes are three consecutive XXHash.RandomHash values. */
    constructor (frequency: real, counter: HashCounter)
      modifies counter
      ensures counter.calls == old(counter.calls) + 3
      ensures hash1 == RandomHashAt(old(counter.calls))
      ensures hash2 == RandomHashAt(old(counter.calls) + 1)
      ensures hash3 == RandomHashAt(old(counter.calls) + 2)
      ensures fractal == 2 && this.frequency == frequency && time == 0.0
    {
      var h1 := counter.RandomHash();
      var h2 := counter.RandomHash();
      var h3 := counter.RandomHash();
      hash1, hash2, hash3 := h1, h2, h3;
      fractal := 2;
      this.frequency := frequency;
      time := 0.0;
    }

    /** The FractalLevel setter. */
    method SetFractalLevel(level: int32)
      modifies this
      ensures fractal == level
      ensures hash1 == old(hash1) && hash2 == old(hash2) && hash3 == old(hash3)
      ensures frequency == old(frequency) && time == old(time)
    {
      fractal := level;
    }

    /** The Frequency setter. */
    method SetFrequency(f: real)
      modifies this
      ensures frequency == f
      ensures hash1 == old(hash1) && hash2 == old(hash2) && hash3 == old(hash3)
      ensures fractal == old(fractal) && time == old(time)
    {
      frequency := f;
    }

    /** Step(): the phase advances by `frequency * dt`; nothing else changes. */
    method Step(dt: real)
      modifies this
      ensures time == old(time) + Times(old(frequency), dt)
      ensures hash1 == old(hash1) && hash2 == old(hash2) && hash3 == old(hash3)
      ensures fractal == old(fractal) && frequency == old(frequency)
    {
      time := time + Times(frequency, dt);
    }

    /** The normalized fractal noise a lane samples at `time + offset`. */
    function Sample(h: XXHash, seed2: IntBits, fbm: (real, int32) -> real): real
      reads this
    {
      Times(fbm(time + LaneOffset(h, seed2), fractal), FbmNorm)
    }

    /** Value(seed2): lane 1's noise. */
    function Value(seed2: IntBits, fbm: (real, int32) -> real): real
      reads this
    {
      Sample(hash1, seed2, fbm)
    }

    /** Value01(seed2): lane 1's noise mapped from [-1, 1] to [0, 1]. */
    function Value01(seed2: IntBits, fbm: (real, int32) -> real): (r: real)
      reads this
      ensures r == Value(seed2, fbm) * 0.5 + 0.5
      ensures -1.0 <= Value(seed2, fbm) <= 1.0 ==> 0.0 <= r <= 1.0
    {
      Sample(hash1, seed2, fbm) * 0.5 + 0.5
    }

    /** Vector(seed2): the three lanes' noise, one per component; the first is Value(seed2). */
    function Vector(seed2: IntBits, fbm: (real, int32) -> real): (r: Vector3)
      reads this
      ensures r.x == Value(seed2, fbm)
      ensures r.y == Sample(hash2, seed2, fbm) && r.z == Sample(hash3, seed2, fbm)
    {
      Vector3(Sample(hash1, seed2, fbm), Sample(hash2, seed2, fbm), Sample(hash3, seed2, fbm))
    }

    /** Rotation(seed2, rx, ry, rz): Euler angles scaled per axis by the three lanes' noise. */
    function RotationXYZ(seed2: IntBits, rx: real, ry: real, rz: real,
                         fbm: (real, int32) -> real, euler: (real, real, real) -> Quaternion): (r: Quaternion)
      reads this
      ensures r == euler(Times(Vector(seed2, fbm).x, rx), Times(Vector(seed2, fbm).y, ry), Times(Vector(seed2, fbm).z, rz))
    {
      euler(
        Times(Sample(hash1, seed2, fbm), rx),
        Times(Sample(hash2, seed2, fbm), ry),
        Times(Sample(hash3, seed2, fbm), rz))
    }

    /** Rotation(seed2, angle): the same angle on every axis. */
    function Rotation(seed2: IntBits, angle: real,
                      fbm: (real, int32) -> real, euler: (real, real, real) -> Quaternion): (r: Quaternion)
      reads this
      ensures r == RotationXYZ(seed2, angle, angle, angle, fbm, euler)
    {
      euler(
        Times(Sample(hash1, seed2, fbm), angle),
        Times(Sample(hash2, seed2, fbm), angle),
        Times(Sample(hash3, seed2, fbm), angle))
    }

    /** Two generators whose fields agree answer every query alike. */
    predicate SameState(other: NoiseGenerator)
      reads this, other
    {
      && hash1 == other.hash1 && hash2 == other.hash2 && hash3 == other.hash3
      && fractal == other.fractal && frequency == other.frequency && time == other.time
    }
  }

  /** The phase after a sequence of Step calls with the given frame times. */
  function TimeAfter(time: real, frequency: real, dts: seq<real>): real
    decreases |dts|
  {
    if |dts| == 0 then time else TimeAfter(time + Times(frequency, dts[0]), frequency, dts[1..])
  }

  /**
   * Determinism: generators built alike and stepped with the same frame times stay alike, so
   * every query returns the same value on both.
   */
  method StepBoth(g1: NoiseGenerator, g2: NoiseGenerator, dts: seq<real>)
    requires g1 != g2 && g1.SameState(g2)
    modifies g1, g2
    ensures g1.SameState(g2)
    ensures g1.time == TimeAfter(old(g1.time), g1.frequency, dts)
    ensures g1.hash1 == old(g1.hash1) && g1.hash2 == old(g1.hash2) && g1.hash3 == old(g1.hash3)
    ensures g1.fractal == old(g1.fractal) && g1.frequency == old(g1.frequency)
  {
    var i := 0;
    while i < |dts|
      invariant 0 <= i <= |dts|
      invariant g1.SameState(g2)
      invariant g1.hash1 == old(g1.hash1) && g1.hash2 == old(g1.hash2) && g1.hash3 == old(g1.hash3)
      invariant g1.fractal == old(g1.fractal) && g1.frequency == old(g1.frequency)
      invariant TimeAfter(g1.time, g1.frequency, dts[i..]) == TimeAfter(old(g1.time), g1.frequency, dts)
    {
      assert dts[i..][1..] == dts[i + 1..];
      g1.Step(dts[i]);
      g2.Step(dts[i]);
      i := i + 1;
    }
    assert dts[i..] == [];
  }

  /** Generators whose fields agree (as StepBoth keeps them) sample the same noise vector. */
  lemma SameStateVector(g1: NoiseGenerator, g2: NoiseGenerator, seed2: IntBits, fbm: (real, int32) -> real)
    requires g1.SameState(g2)
    ensures g1.Vector(seed2, fbm) == g2.Vector(seed2, fbm)
  {
  }

  /** ... and the same Value01. */
  lemma SameStateValue01(g1: NoiseGenerator, g2: NoiseGenerator, seed2: IntBits, fbm: (real, int32) -> real)
    requires g1.SameState(g2)
    ensures g1.Value01(seed2, fbm) == g2.Value01(seed2, fbm)
  {
  }
}
