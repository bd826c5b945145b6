/** Small shared vocabulary: an optional value, three-vectors over the reals
    (the host engine's three-vector of doubles) and the two charge-carrier
    species. */
module Wrappers {

  /** A value that may be absent (a null pointer, a missing rate model, or a
      floating-point result the real-number model cannot represent). */
  datatype Option<+T> = None | Some(value: T)
}

module Vectors {

  /** A position in the crystal, in the engine's internal length unit. */
  datatype Vec3 = Vec3(x: real, y: real, z: real)

  const Origin: Vec3 := Vec3(0.0, 0.0, 0.0)

  function Plus(a: Vec3, b: Vec3): Vec3 {
    Vec3(a.x + b.x, a.y + b.y, a.z + b.z)
  }

  function Scale(a: Vec3, k: real): Vec3 {
    Vec3(a.x * k, a.y * k, a.z * k)
  }

  function Div(a: Vec3, d: real): Vec3
    requires d != 0.0
  {
    Vec3(a.x / d, a.y / d, a.z / d)
  }

  /** A vector whose scaling by a non-zero weight is known is that scaled
      vector divided by the weight. */
  lemma UnscaleByWeight(v: Vec3, w: real, s: Vec3)
    requires w != 0.0
    requires Scale(v, w) == s
    ensures v == Div(s, w)
  {
  }
}

module Carriers {

  /** The two drifting charge-carrier species. */
  datatype Carrier = Electron | Hole
}
