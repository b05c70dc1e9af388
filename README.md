# Skinner and Klak core, modelled in Dafny

Skinner is a set of Unity effects (particles, trails, glitches, a debug view) driven by GPU
kernels that read vertex attributes of a skinned mesh. This project models the parts of Skinner
and of its Klak utility library that compute rather than render:

- Klak's hashing (`XXHash`: a one-word xxHash32, range helpers, the `RandomHash` counter);
- its tweening (`ETween`, `DTween` and the `DTween*` structs), quaternion/vector conversions,
  the `FloatInterpolator` and the `NoiseGenerator`;
- Skinner's double-buffered `AnimationKernelSet`;
- the template-mesh builders (trail, particle, glitch);
- the unique-vertex extraction of `SkinnerModel` and `SkinnerTemplate`;
- the line mesh and draw count of `SkinnerDebug`.

Floats are `real`, C# `int` is `int32` with explicit wrap-around (`CSharpInt.Wrap`) and
truncating division (`TruncDiv`, `TruncRem`), and `uint` hash arithmetic is `bv32`. Engine
calls the code depends on are parameters, not definitions:

- `Mathf.Exp`, `Mathf.DeltaAngle`, `Quaternion.Lerp`, `Quaternion.Euler` and
  `Vector4.Normalize`;
- `Perlin.Fbm`;
- `Time.deltaTime` and `Random.value`.

Meshes are the lists the code builds. Exceptions are `Result` errors:

- division by zero in `XXHash.Range` and in `lineCount`;
- the overflow of `int.MinValue % -1` in both integer `XXHash.Range` overloads;
- an attribute array that is too short in the unique-vertex loops.

Engine objects whose identity matters are classes: render textures, materials, and the
components whose fields change.

Modules, one per source file plus shared helpers:

- `Wrappers`, `CSharpInt`, `Vectors` and `Linq` are shared helpers.
- `Hashing` (XXHash.cs).
- `ETween` and `DTween` (Tween.cs).
- `VectorMathExtension`.
- `Interpolator`.
- `Noise` (NoiseGenerator.cs).
- `SkinnerInternals`.
- `TrailTemplate`, `ParticleTemplate` and `GlitchTemplate`.
- `UniqueVertices` (the extraction both asset initializers share), with `SkinnerModelAsset` and
  `SkinnerTemplateAsset`.
- `SkinnerDebug`.

## Model

| member | source | states |
|---|---|---|
| Hashing.Rotl32 | Assets/Klak/Math/XXHash.cs:38-41 | the source's shift pair, with both counts masked to five bits as C# does; Rotl32By17 and Rotl32Inverse state what it computes |
| Hashing.Rotl32By17 | Assets/Klak/Math/XXHash.cs:38-41 | with count 17, `(x << r) \| (x >> 32 - r)` is the bit rotation left by 17 |
| Hashing.Rotl32Inverse | Assets/Klak/Math/XXHash.cs:38-41 | for every count 0 < r < 32, rotating by r and then by 32 - r restores the word |
| Hashing.GetHash | Assets/Klak/Math/XXHash.cs:47-59 | the static hash on the bit patterns of key and seed, with `uint` arithmetic mod 2^32; its meaning is GetHashIsXXH32 |
| Hashing.GetHashIsXXH32 | Assets/Klak/Math/XXHash.cs:47-59 | GetHash(data, seed) equals XXH32 of the 4-byte little-endian encoding of data with that seed (short-input path, all arithmetic mod 2^32), defined independently by lanes, bytes and avalanche |
| Hashing.ReadEncodeLE32 | Assets/Klak/Math/XXHash.cs:51 | reading back the little-endian encoding of a word gives the word |
| Hashing.ToInt | Assets/Klak/Math/XXHash.cs:71 | `(int)` of a hash keeps values below 2^31 and subtracts 2^32 from the rest |
| Hashing.ToIntInjective | Assets/Klak/Math/XXHash.cs:71 | `(int)` is injective on hashes, so distinct hashes give distinct seeds |
| Hashing.InstanceHash | Assets/Klak/Math/XXHash.cs:80-83 | the instance GetHash(data) is XXH32 of the key's little-endian bytes with the stored seed |
| Hashing.Remainder | Assets/Klak/Math/XXHash.cs:85-88 | `s % max` fails with DivideByZero exactly when max is 0 and with Overflow exactly for `int.MinValue % -1`; otherwise the remainder is smaller than max in magnitude, follows the sign of the signed hash, and equals s - trunc(s / max) * max |
| Hashing.Range | Assets/Klak/Math/XXHash.cs:85-88 | Range(max, data) fails with DivideByZero exactly when max is 0 and with Overflow exactly when the signed hash is int.MinValue and max is -1; a result is smaller than max in magnitude and non-negative for a non-negative signed hash |
| Hashing.OffsetRemainder | Assets/Klak/Math/XXHash.cs:90-93 | `s % (max - min) + min` fails with DivideByZero exactly when max == min, and with Overflow exactly when s is int.MinValue and the wrapped difference is -1 (max == min - 1, or min = int.MinValue with max = int.MaxValue) |
| Hashing.RangeMinMax | Assets/Klak/Math/XXHash.cs:90-93 | Range(min, max, data) fails with DivideByZero exactly when max == min; for min < max with a difference that fits an int it succeeds, and a non-negative signed hash lands in [min, max) |
| Hashing.OffsetRemainderBounds | Assets/Klak/Math/XXHash.cs:90-93 | for min < max without overflow the result lies in [min, max) when the signed hash is non-negative, and in (2·min − max, max) whenever that interval fits an int |
| Hashing.UnitValue | Assets/Klak/Math/XXHash.cs:95-98 | Value01 lies in [0, 1]; it is 0 exactly for hash 0 and 1 exactly for uint.MaxValue |
| Hashing.Value01 | Assets/Klak/Math/XXHash.cs:95-98 | Value01(data) lies in [0, 1], is 0 exactly when the instance hash is 0 and 1 exactly when it is uint.MaxValue |
| Hashing.ScaleUnit | Assets/Klak/Math/XXHash.cs:100-103 | the float Range lies between min and max (in either order) and hits min at 0 and max at 1 |
| Hashing.RangeFloat | Assets/Klak/Math/XXHash.cs:100-103 | the float Range(min, max, data) lies between min and max, in either order |
| Hashing.HashCounter.RandomHash | Assets/Klak/Math/XXHash.cs:65-73 | each access advances the counter by exactly one and returns `XXHash((int)GetHash(0xcafe, oldCounter))`, with the counter wrapped to 32 bits |
| ETween.Step | Assets/Klak/Math/Tween.cs:34-39 | the clamped Lerp keeps the result between current and target |
| ETween.StepFixedPoint | Assets/Klak/Math/Tween.cs:34-39 | Step(x, x) == x |
| ETween.StepNoTime | Assets/Klak/Math/Tween.cs:37-38 | with dt = 0 and exp(0) = 1 the value does not move |
| ETween.StepAngle | Assets/Klak/Math/Tween.cs:41-47 | for an easing factor in [0, 1] the result lies between target − delta and target, so the step covers part of the shortest arc; a zero difference or a vanished factor gives the target, factor 1 gives target − delta |
| ETween.StepZeroSpeed | Assets/Klak/Math/Tween.cs:34-47 | at speed 0 (with exp(0) = 1) the float step leaves the value where it is and the angle step moves back by the whole shortest difference |
| ETween.StepVector3 | Assets/Klak/Math/Tween.cs:49-54 | the Vector3 step is the scalar step on each component |
| ETween.StepVector3FixedPoint | Assets/Klak/Math/Tween.cs:49-54 | Step(x, x) == x for vectors |
| ETween.StepQuaternion | Assets/Klak/Math/Tween.cs:56-63 | returns target when current == target, and the engine Lerp toward current otherwise |
| DTween.StepFloat | Assets/Klak/Math/Tween.cs:73-81 | the new velocity times (1 + ω·dt)² is the old velocity minus (current − target)·ω²·dt, and the position moves by velocity·dt |
| DTween.StepAtRest | Assets/Klak/Math/Tween.cs:73-81 | at rest on the target the spring stays at the target with velocity 0 |
| DTween.StepNoTime | Assets/Klak/Math/Tween.cs:76-80 | with dt = 0 the velocity is kept and the position is current |
| DTween.StepVector2 | Assets/Klak/Math/Tween.cs:83-91 | the step with the Vector2 operators; StepVector2Componentwise ties it to the float step |
| DTween.StepVector3 | Assets/Klak/Math/Tween.cs:93-101 | the step with the Vector3 operators; StepVector3Componentwise ties it to the float step |
| DTween.StepVector4 | Assets/Klak/Math/Tween.cs:103-111 | the step with the Vector4 operators; StepVector4Componentwise ties it to the float step |
| DTween.StepVector2Componentwise | Assets/Klak/Math/Tween.cs:83-91 | the Vector2 step is the scalar step on each component with the same ω and dt |
| DTween.StepVector3Componentwise | Assets/Klak/Math/Tween.cs:93-101 | the Vector3 step is the scalar step on each component |
| DTween.StepVector4Componentwise | Assets/Klak/Math/Tween.cs:103-111 | the Vector4 step is the scalar step on each component |
| DTween.CloserTarget | Assets/Klak/Math/Tween.cs:119-120 | the aimed-at vector is the target or its negation, has non-negative dot product with current, and is the target itself when that dot is non-negative |
| DTween.StepQuaternion | Assets/Klak/Math/Tween.cs:113-126 | the rotation is the normalized Vector4 spring step toward the closer representative, and the velocity is that step's velocity |
| DTween.StepQuaternionDoubleCover | Assets/Klak/Math/Tween.cs:117-125 | when dot(current, target) ≠ 0, stepping toward q and toward −q gives the same rotation and velocity |
| DTween.DTweenFloat.constructor | Assets/Klak/Math/Tween.cs:136-141 | stores position and omega with zero velocity |
| DTween.DTweenFloat.Step | Assets/Klak/Math/Tween.cs:143-146 | position and velocity become the static step's results; omega is unchanged |
| DTween.DTweenVector2.constructor | Assets/Klak/Math/Tween.cs:163-168 | stores position and omega with zero velocity |
| DTween.DTweenVector2.Step | Assets/Klak/Math/Tween.cs:170-173 | the same for Vector2 |
| DTween.DTweenVector3.constructor | Assets/Klak/Math/Tween.cs:188-193 | stores position and omega with zero velocity |
| DTween.DTweenVector3.Step | Assets/Klak/Math/Tween.cs:195-198 | the same for Vector3 |
| DTween.DTweenQuaternion.constructor | Assets/Klak/Math/Tween.cs:213-218 | stores rotation and omega with zero velocity |
| DTween.DTweenQuaternion.Step | Assets/Klak/Math/Tween.cs:220-223 | rotation and velocity become the quaternion step's results; omega is unchanged |
| VectorMathExtension.ToQuaternion | Assets/Klak/Extension/VectorMathExtension.cs:31-34 | ToVector4 undoes ToQuaternion |
| VectorMathExtension.ToVector4 | Assets/Klak/Extension/VectorMathExtension.cs:46-49 | copies x, y, z, w in that order |
| VectorMathExtension.ToNormalizedQuaternion | Assets/Klak/Extension/VectorMathExtension.cs:36-40 | its components are those of the normalized vector |
| VectorMathExtension.RoundTrips | Assets/Klak/Extension/VectorMathExtension.cs:31-49 | both conversions are mutually inverse, and ToNormalizedQuaternion(v) == ToQuaternion(Normalize(v)) |
| Interpolator.Config.constructor | Assets/Klak/Math/Interpolator.cs:41-54 | the default configuration is (DampedSpring, 10) and is enabled |
| Interpolator.Config.Make | Assets/Klak/Math/Interpolator.cs:63-67 | stores the given type and speed |
| Interpolator.Config.DirectPreset | Assets/Klak/Math/Interpolator.cs:69-71 | the Direct preset is a fresh (Direct, 10) configuration, not enabled |
| Interpolator.Config.QuickPreset | Assets/Klak/Math/Interpolator.cs:73-75 | the Quick preset is a fresh (DampedSpring, 50) configuration, enabled |
| Interpolator.FloatInterpolator.constructor | Assets/Klak/Math/Interpolator.cs:92-97 | current and target are the initial value and the velocity is 0 |
| Interpolator.FloatInterpolator.Step | Assets/Klak/Math/Interpolator.cs:105-122 | Direct mode jumps to the target; Exponential mode applies ETween.Step; DampedSpring mode applies DTween.Step to value and velocity; the velocity changes only in spring mode; a value at rest on its target stays there; the result is the new currentValue |
| Interpolator.FloatInterpolator.StepTo | Assets/Klak/Math/Interpolator.cs:99-103 | sets the target, then steps as above |
| Noise.LaneOffset | Assets/Klak/Math/NoiseGenerator.cs:92 | a lane's offset `hash.Range(-100, 100, seed2)` lies in [-100, 100] |
| Noise.NoiseGenerator.WithSeed | Assets/Klak/Math/NoiseGenerator.cs:57-65 | lane seeds are seed, seed ^ 0x1327495a and seed ^ 0x3cbe84f2 (pairwise distinct); fractal 2, time 0 |
| Noise.NoiseGenerator.constructor | Assets/Klak/Math/NoiseGenerator.cs:47-55 | the three lanes are three consecutive RandomHash values and the counter advances by 3; fractal 2, time 0 |
| Noise.NoiseGenerator.SetFractalLevel | Assets/Klak/Math/NoiseGenerator.cs:71-74 | sets the fractal level and nothing else |
| Noise.NoiseGenerator.SetFrequency | Assets/Klak/Math/NoiseGenerator.cs:76-79 | sets the frequency and nothing else |
| Noise.NoiseGenerator.Step | Assets/Klak/Math/NoiseGenerator.cs:81-84 | time advances by frequency·dt; no other field changes |
| Noise.NoiseGenerator.Value | Assets/Klak/Math/NoiseGenerator.cs:96-100 | lane 1's fractal noise at time + offset, scaled by 1/0.75; Value01 and Vector are stated in terms of it |
| Noise.NoiseGenerator.Value01 | Assets/Klak/Math/NoiseGenerator.cs:90-100 | Value01(s) == Value(s)·0.5 + 0.5, which lies in [0, 1] when Value(s) lies in [-1, 1] |
| Noise.NoiseGenerator.Vector | Assets/Klak/Math/NoiseGenerator.cs:96-111 | x is Value(s); y and z sample lanes 2 and 3 the same way |
| Noise.NoiseGenerator.RotationXYZ | Assets/Klak/Math/NoiseGenerator.cs:124-133 | Euler angles are the three lanes' noise scaled by rx, ry, rz |
| Noise.NoiseGenerator.Rotation | Assets/Klak/Math/NoiseGenerator.cs:113-122 | Rotation(s, a) == Rotation(s, a, a, a) |
| Noise.StepBoth | Assets/Klak/Math/NoiseGenerator.cs:81-84 | two generators with equal fields, stepped with the same frame times, keep equal fields; the time is the fold of the steps |
| Noise.SameStateVector | Assets/Klak/Math/NoiseGenerator.cs:102-111 | generators with equal fields return equal Vector values |
| Noise.SameStateValue01 | Assets/Klak/Math/NoiseGenerator.cs:90-94 | and equal Value01 values |
| SkinnerInternals.LastSlot | Assets/Skinner/Internal/SkinnerInternals.cs:62-66 | a kind's last-frame slot is inside the array of two slots per kind |
| SkinnerInternals.WorkingSlot | Assets/Skinner/Internal/SkinnerInternals.cs:62-73 | a kind's working slot is in bounds, differs from its last slot by exactly half the array, and is the last slot of the swapped mapping |
| SkinnerInternals.SlotsOfKindsDisjoint | Assets/Skinner/Internal/SkinnerInternals.cs:62-73 | distinct kinds never share a slot in either role |
| SkinnerInternals.AnimationKernelSet.constructor | Assets/Skinner/Internal/SkinnerInternals.cs:81-90 | the slot array has two empty slots per buffer kind; not ready, not swapped |
| SkinnerInternals.AnimationKernelSet.GetLastBuffer | Assets/Skinner/Internal/SkinnerInternals.cs:62-66 | returns the kind's last slot, which is set exactly when the set is ready |
| SkinnerInternals.AnimationKernelSet.GetWorkingBuffer | Assets/Skinner/Internal/SkinnerInternals.cs:69-73 | returns the kind's working slot, never the last buffer of a ready set |
| SkinnerInternals.AnimationKernelSet.Setup | Assets/Skinner/Internal/SkinnerInternals.cs:93-111 | nothing changes on a ready set; otherwise a fresh material and a fresh distinct texture of the given size fill every slot, the swap flag is cleared and the set is ready |
| SkinnerInternals.AnimationKernelSet.Release | Assets/Skinner/Internal/SkinnerInternals.cs:114-128 | nothing changes on a set that is not ready; otherwise material and every slot are nulled and the set is not ready |
| SkinnerInternals.AnimationKernelSet.Invoke | Assets/Skinner/Internal/SkinnerInternals.cs:131-134 | only the working texture of the buffer is written, with the kernel's pass index |
| SkinnerInternals.AnimationKernelSet.SwapBuffers | Assets/Skinner/Internal/SkinnerInternals.cs:137-140 | every kind's last and working textures exchange roles |
| TrailTemplate.LineCount | Assets/Skinner/SkinnerTrailTemplate.cs:19 | fails exactly when the wrapped `2 * h` is 0; for 1 ≤ h ≤ 0x7fff it is the largest n with n·2h ≤ 0xffff |
| TrailTemplate.LineCountPositive | Assets/Skinner/SkinnerTrailTemplate.cs:19 | a clamped history length gives at least 63 lines |
| TrailTemplate.TrailVerticesLength | Assets/Skinner/SkinnerTrailTemplate.cs:41-50 | the vertex list has lineCount · 2h entries |
| TrailTemplate.TrailVertexAt | Assets/Skinner/SkinnerTrailTemplate.cs:41-50 | entry line·2h + 2·seg + side is the vertex ((line+0.5)/lcount, (seg+0.5)/h, ∓0.5) |
| TrailTemplate.TrailIndicesLength | Assets/Skinner/SkinnerTrailTemplate.cs:58-73 | the index list has n · 6·(h − 1) entries |
| TrailTemplate.TrailIndexAt | Assets/Skinner/SkinnerTrailTemplate.cs:58-73 | entry line·6(h−1) + 6·seg + j is corner j of the quad at vertex line·2h + 2·seg |
| TrailTemplate.QuadInLine | Assets/Skinner/SkinnerTrailTemplate.cs:58-73 | the corners of line L lie in [L·2h, (L+1)·2h) because of the extra `vi += 2` per line |
| TrailTemplate.TrailIndicesBounded | Assets/Skinner/SkinnerTrailTemplate.cs:55-73 | every index is below n·2h, the vertex count |
| TrailTemplate.BuildVertices | Assets/Skinner/SkinnerTrailTemplate.cs:39-50 | the nested loop builds exactly TrailVertices |
| TrailTemplate.BuildIndices | Assets/Skinner/SkinnerTrailTemplate.cs:55-73 | the nested loop with its running vi builds exactly TrailIndices |
| TrailTemplate.SkinnerTrailTemplate.constructor | Assets/Skinner/SkinnerTrailTemplate.cs:16 | historyLength starts at 32 |
| TrailTemplate.SkinnerTrailTemplate.OnValidate | Assets/Skinner/SkinnerTrailTemplate.cs:89-92 | clamps historyLength into [4, 512] and changes nothing else |
| TrailTemplate.SkinnerTrailTemplate.RebuildMesh | Assets/Skinner/SkinnerTrailTemplate.cs:32-81 | stores the vertex and index lists for lineCount lines, or fails on a zero divisor |
| TrailTemplate.ClampedMeshFits | Assets/Skinner/SkinnerTrailTemplate.cs:19 | for a clamped history length the mesh has ≥ 1 line, at most 0xffff vertices, and every index is below the vertex count |
| ParticleTemplate.GetShape | Assets/Skinner/SkinnerParticleTemplate.cs:41-46 | the default shape for a null or empty list; for an index inside the list, that slot's shape, or the default for a null slot; the result is always the default or a listed shape |
| ParticleTemplate.GetShapeCycles | Assets/Skinner/SkinnerParticleTemplate.cs:44 | the shape list is used cyclically: index + length gives the same shape |
| ParticleTemplate.PackedLengths | Assets/Skinner/SkinnerParticleTemplate.cs:77-84 | the vertex and uv1 lists have one entry per packed vertex |
| ParticleTemplate.PackedParallel | Assets/Skinner/SkinnerParticleTemplate.cs:77-80 | for well-formed shapes the normal, tangent and uv0 lists are as long as the vertex list |
| ParticleTemplate.PackedVertexAt | Assets/Skinner/SkinnerParticleTemplate.cs:77 | vertex v of instance k sits after the vertices of instances 0..k−1 |
| ParticleTemplate.PackedIdAt | Assets/Skinner/SkinnerParticleTemplate.cs:83-84 | before rescaling, every vertex of instance k has uv1 (k + 0.5, 0) |
| ParticleTemplate.RescaledIdAt | Assets/Skinner/SkinnerParticleTemplate.cs:95 | after rescaling, uv1 of instance k is ((k + 0.5)/n, 0), strictly inside (0, 1) |
| ParticleTemplate.PackedIndexAt | Assets/Skinner/SkinnerParticleTemplate.cs:87-90 | instance k's triangle indices are its shape's indices shifted by the vertex count of instances 0..k−1 |
| ParticleTemplate.PackedIndicesInRange | Assets/Skinner/SkinnerParticleTemplate.cs:87 | for well-formed shapes every packed index is a packed vertex |
| ParticleTemplate.FitsBelow | Assets/Skinner/SkinnerParticleTemplate.cs:74 | an instance count within the vertex budget means every earlier instance fitted |
| ParticleTemplate.Pack | Assets/Skinner/SkinnerParticleTemplate.cs:63-95 | the loop stops at maxInstanceCount or when the next shape would pass 65535 vertices; the total never exceeds 65535; the lists are the packed concatenation |
| ParticleTemplate.SkinnerParticleTemplate.constructor | Assets/Skinner/SkinnerParticleTemplate.cs:16-28 | one empty shape slot, maxInstanceCount 8192, instanceCount 0 |
| ParticleTemplate.SkinnerParticleTemplate.OnValidate | Assets/Skinner/SkinnerParticleTemplate.cs:114-117 | clamps maxInstanceCount into [4, 8192] and changes nothing else |
| ParticleTemplate.SkinnerParticleTemplate.RebuildMesh | Assets/Skinner/SkinnerParticleTemplate.cs:54-106 | instanceCount ≤ maxInstanceCount (or 0), the mesh is the packed concatenation of GetShape(0..instanceCount−1), within 65535 vertices, and the loop stopped only at the cap or the budget |
| GlitchTemplate.VertexCountFits | Assets/Skinner/Internal/SkinnerGlitchTemplate.cs:31 | vcount = 65535, a multiple of 3 below 0x10000 |
| GlitchTemplate.GlitchUVsLength | Assets/Skinner/Internal/SkinnerGlitchTemplate.cs:40-49 | three UVs per triangle |
| GlitchTemplate.GlitchUVAt | Assets/Skinner/Internal/SkinnerGlitchTemplate.cs:34-48 | UV j of triangle t is (hash j, hash (j+1) mod 3, hash (j+2) mod 3, common hash) |
| GlitchTemplate.GlitchUVRotates | Assets/Skinner/Internal/SkinnerGlitchTemplate.cs:46-48 | within a triangle, UV j+1's (x, y, z) is UV j's rotated left |
| GlitchTemplate.GlitchUVSharesW | Assets/Skinner/Internal/SkinnerGlitchTemplate.cs:38-48 | the three UVs of a triangle share w |
| GlitchTemplate.HashedUVs | Assets/Skinner/Internal/SkinnerGlitchTemplate.cs:39-49 | the step-3 loop builds exactly GlitchUVs and draws four random values per triangle |
| GlitchTemplate.SkinnerGlitchTemplate.RebuildMesh | Assets/Skinner/Internal/SkinnerGlitchTemplate.cs:26-62 | 65535 zero vertices, one UV per vertex as GlitchUVs, and the identity index list |
| UniqueVertices.FirstIndicesExactly | Assets/Skinner/SkinnerModel.cs:51-60 | an input index is kept exactly when its vertex occurs nowhere before it |
| UniqueVertices.FirstIndicesIncrease | Assets/Skinner/SkinnerModel.cs:51-60 | kept indices are in input order |
| UniqueVertices.FirstIndicesCover | Assets/Skinner/SkinnerModel.cs:53 | after i inputs the kept vertices are exactly the vertices seen so far, so `!Any(_ == v)` means "not seen before" |
| UniqueVertices.NoDuplicates | Assets/Skinner/SkinnerModel.cs:53 | the output vertex list has no two equal vertices |
| UniqueVertices.UniqueCovers | Assets/Skinner/SkinnerTemplate.cs:44-51 | every input vertex is in the output, nothing else is, and the output is no longer than the input |
| UniqueVertices.UniqueAreFirst | Assets/Skinner/SkinnerTemplate.cs:44-51 | kept vertex k is the first occurrence of its value in the input |
| SkinnerModelAsset.ExtractUnique | Assets/Skinner/SkinnerModel.cs:51-60 | the loop keeps the first occurrences, with the normal, tangent and bone weight of each; it fails exactly when a kept index is past an attribute array |
| SkinnerModelAsset.ModelUVAt | Assets/Skinner/SkinnerModel.cs:63-64 | UV i is ((i + 0.5)/n, 0), strictly inside (0, 1) |
| SkinnerModelAsset.ModelUVsIncrease | Assets/Skinner/SkinnerModel.cs:63-64 | UVs increase with the index, so no two vertices share one |
| SkinnerModelAsset.SkinnerModel.Initialize | Assets/Skinner/SkinnerModel.cs:37-98 | the mesh holds the unique vertices with their attributes, the UVs and indices 0..n−1; vertexCount == n ≤ input length; a failure changes nothing |
| SkinnerTemplateAsset.ExtractUnique | Assets/Skinner/SkinnerTemplate.cs:44-51 | the loop keeps the first occurrences with the bone weight of each; it fails exactly when a kept index is past the weight array |
| SkinnerTemplateAsset.TemplateUVAt | Assets/Skinner/SkinnerTemplate.cs:54-55 | UV i is (i/n, 0) in [0, 1), the first one the origin |
| SkinnerTemplateAsset.TemplateUVsIncrease | Assets/Skinner/SkinnerTemplate.cs:54-55 | UVs increase with the index |
| SkinnerTemplateAsset.SkinnerTemplate.Initialize | Assets/Skinner/SkinnerTemplate.cs:32-90 | the mesh holds the unique vertices, their weights, the UVs and indices 0..n−1; vertexCount == n ≤ input length; a failure changes nothing |
| SkinnerDebug.LinesPerMeshFits | Assets/Skinner/SkinnerDebug.cs:34 | linesPerMesh = 10922, and 6 · linesPerMesh ≤ 0x10000 is the most six-vertex lines that fit |
| SkinnerDebug.BuildLines | Assets/Skinner/SkinnerDebug.cs:47-62 | both arrays have 6 · linesPerMesh entries, vertex 6i + c is LineVertex(i, c), and indices[j] == j |
| SkinnerDebug.SetLine | Assets/Skinner/SkinnerDebug.cs:52-59 | one loop pass writes the six vertices of line i and leaves the earlier lines alone |
| SkinnerDebug.LineVertexLayout | Assets/Skinner/SkinnerDebug.cs:53-59 | vertex 6i+2k has (y, z) = (k, 0) and 6i+2k+1 has (k, 1), all with the line's x |
| SkinnerDebug.LineUInside | Assets/Skinner/SkinnerDebug.cs:53 | line x coordinates are strictly increasing inside (0, 1) |
| SkinnerDebug.DrawCount | Assets/Skinner/SkinnerDebug.cs:90 | the wrapped, truncated quotient fits an int |
| SkinnerDebug.DrawCountCeil | Assets/Skinner/SkinnerDebug.cs:90 | without overflow, drawCount is the ceiling: drawCount·linesPerMesh ≥ vertexCount > (drawCount − 1)·linesPerMesh, and linesPerMesh·drawCount fits an int |
| SkinnerDebug.DrawCountWrapped | Assets/Skinner/SkinnerDebug.cs:90 | a vertex count whose sum overflows gives drawCount ≤ 0, so nothing is drawn |
| SkinnerDebug.BufferOffsetsOrdered | Assets/Skinner/SkinnerDebug.cs:93 | the draws' buffer offsets start at 0, increase strictly and stay below 1 |
| SkinnerDebug.SkinnerDebugRenderer.Start | Assets/Skinner/SkinnerDebug.cs:40-70 | the stored mesh has the line vertices and the identity index list |
| SkinnerDebug.SkinnerDebugRenderer.LateUpdate | Assets/Skinner/SkinnerDebug.cs:78-100 | no draw for a missing or unready source; otherwise one draw per drawCount, each with offset i / (linesPerMesh · drawCount) |

## Left out

- Rendering and engine I/O are not modelled: `Graphics.Blit`, `Graphics.DrawMesh`, the
  `Mesh` setters, `UploadMeshData`, `Destroy`, `Instantiate`, the mesh name trimming, bounds
  and material property blocks. Each mesh is the list of values the code hands to the engine.
  The particle template builds a tangent list that it never hands to its mesh; the model keeps
  that list in `MeshData`.
- `OnEnable` and `OnDestroy`, which only create or destroy engine objects, are not modelled.
- `Mesh.Optimize` in SkinnerTemplate.Initialize may reorder the vertices. The model states the
  lists before that call and claims nothing about the final mesh.
- Floating point is modelled as `real`. Rounding, NaN and infinity are not modelled.
- Unity's `==` on `Vector3` and `Quaternion` is approximate and not transitive. It is modelled
  as exact equality, in ETween.StepQuaternion and in the unique-vertex loops.
- Engine functions (`Mathf.Exp`, `Mathf.DeltaAngle`, `Quaternion.Lerp`, `Quaternion.Euler`,
  `Vector4.Normalize`, `Perlin.Fbm`) are function parameters, so nothing is proved about their
  values.
- `Time.deltaTime` is the parameter `dt`.
- `Random.value` is a function from draw number to value.
- The process-wide `XXHash._counter` is an explicit `HashCounter` object.
- DTween.StepFloat requires `1 + omega * dt != 0`. Floats would give an infinity or NaN
  there; that case is not modelled.
- Interpolator.FloatInterpolator.Step: the damped-spring mode requires that same divisor to be
  non-zero.
- Convergence, stability and overshoot of the tweens are numeric properties and are not stated.
- `NoiseGenerator`, `FloatInterpolator`, `DTween`, `DTweenVector2`, `DTweenVector3` and
  `DTweenQuaternion` are C# structs with copy semantics. They are modelled as classes
  (`DTweenFloat` for `DTween`), so a copy aliases its original: after `b = a; b.Step(t)` the
  model changes `a` as well, where C# changes only the copy.
- `FloatInterpolator.config` is assumed non-null.
- The implicit conversions of the `DTween*` structs to their position are not modelled. They
  only read a field.
- Hashing.HashCounter.RandomHash counts accesses with an unbounded `nat`. The C# `int` counter
  is that count wrapped to 32 bits, and `CounterBits` applies that wrap.
- SkinnerInternals.AnimationKernelSet.Invoke requires a ready set. On a set that is not ready
  the C# code passes a null material to the engine, which the model does not describe.
- The kernel set's buffer format and texture filter and wrap modes are engine settings. They
  are not modelled.
- The number of buffer kinds (`Enum.GetValues(...).Length`) is the constructor parameter `kinds`.
- ParticleTemplate.GetShape takes a `nat` index. The only caller passes `_instanceCount`, which
  is never negative.
- The particle template's default shape is assumed non-null.
- ParticleTemplate.Pack adds `vertexCount + vtx_in.Length` without 32-bit wrap-around. The
  running total is at most 65535 when it is summed, so the model matches C# for shapes with at
  most 2^31 − 65536 vertices; a larger shape would wrap the C# sum, which is not modelled.
- GlitchTemplate.HashedUVs appends each triangle's three UVs in one step, where the source
  makes three `Add` calls. The result list is the same.
- The unique-vertex loops read the source mesh's arrays as lists. A missing normal, tangent or
  bone-weight array is an empty list, which makes the loop fail at its first kept vertex.
- SkinnerDebug.SkinnerDebugRenderer.LateUpdate returns the offsets of its draws instead of
  issuing them. The source is reduced to its `isReady` flag and its vertex count.
- SkinnerDebug.DrawCount's own contract only bounds the result. The ceiling property is
  DrawCountCeil, for counts whose sum does not overflow.
- The trail, particle and glitch loops run in separate builder methods (`BuildVertices`,
  `BuildIndices`, `Pack`, `HashedUVs`), which their class methods call. The debug lines are
  written by `BuildLines` and `SetLine`. The extraction loops are `ExtractUnique`.
