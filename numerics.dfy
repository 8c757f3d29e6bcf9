/** The numeric routines the camera takes from the glm library but that this
    model does not define: sine, cosine, tangent, vector normalisation (which
    needs a square root) and 4x4 matrix inversion. They are supplied as a
    record of functions, so every property proved about the camera holds for
    whatever those routines compute, except where a lemma names the one fact
    about them it relies on. */
module Numerics {
  import opened LinearAlgebra

  datatype MathLibrary = MathLibrary(
    sin: real -> real,
    cos: real -> real,
    tan: real -> real,
    normalize: Vec3 -> Vec3,
    inverse: Mat4 -> Mat4)

  /** sin 0 = 0 and cos 0 = 1. */
  predicate TrigAtZero(lib: MathLibrary) {
    lib.sin(0.0) == 0.0 && lib.cos(0.0) == 1.0
  }

  /** sin^2 t + cos^2 t = 1 at the angle t. */
  predicate PythagoreanAt(lib: MathLibrary, t: real) {
    lib.sin(t) * lib.sin(t) + lib.cos(t) * lib.cos(t) == 1.0
  }

  /** pi to the precision of the double constant glm uses. */
  const Pi: real := 3.141592653589793

  /** glm::radians: degrees to radians. */
  function Radians(degrees: real): (r: real)
    ensures degrees == 0.0 <==> r == 0.0
    ensures degrees > 0.0 <==> r > 0.0
  {
    degrees * Pi / 180.0
  }
}
