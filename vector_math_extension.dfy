/**
 * Klak's conversions between Unity's Quaternion and Vector4 (the spring integrator works on
 * quaternions as 4-vectors). Vector4.Normalize is an engine call and is passed in as `normalize`.
 */
module VectorMathExtension {
  import opened Vectors

  /** Vector4.ToQuaternion: copies x, y, z, w in that order. */
  function ToQuaternion(v: Vector4): (q: Quaternion)
    ensures ToVector4(q) == v
  {
    Quaternion(v.x, v.y, v.z, v.w)
  }

  /** Quaternion.ToVector4: copies x, y, z, w in that order. */
  function ToVector4(q: Quaternion): (v: Vector4)
    ensures v.x == q.x && v.y == q.y && v.z == q.z && v.w == q.w
  {
    Vector4(q.x, q.y, q.z, q.w)
  }

  /** Vector4.ToNormalizedQuaternion: normalizes first, then copies the components. */
  function ToNormalizedQuaternion(v: Vector4, normalize: Vector4 -> Vector4): (q: Quaternion)
    ensures ToVector4(q) == normalize(v)
  {
    var n := normalize(v);
    Quaternion(n.x, n.y, n.z, n.w)
  }

  /** The two conversions are mutually inverse. */
  lemma RoundTrips(q: Quaternion, v: Vector4, normalize: Vector4 -> Vector4)
    ensures ToQuaternion(ToVector4(q)) == q
    ensures ToVector4(ToQuaternion(v)) == v
    ensures ToNormalizedQuaternion(v, normalize) == ToQuaternion(normalize(v))
  {
  }
}
