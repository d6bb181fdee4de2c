/** GLSL `vec2`/`vec3`/`vec4` arithmetic over exact reals, as the filter
    shaders of src/components/PostProcessing.tsx use it. */
module Colour {

  datatype Vec2 = Vec2(x: real, y: real)

  datatype Vec3 = Vec3(r: real, g: real, b: real)

  datatype Vec4 = Vec4(rgb: Vec3, a: real)

  const Black := Vec3(0.0, 0.0, 0.0)

  /** The luminance weights the tensor and Kuwahara shaders use (ITU-R BT.601). */
  const Luma := Vec3(0.299, 0.587, 0.114)

  /** `vec3(k)`. */
  function Splat(k: real): Vec3 {
    Vec3(k, k, k)
  }

  function Add(u: Vec3, v: Vec3): Vec3 {
    Vec3(u.r + v.r, u.g + v.g, u.b + v.b)
  }

  function Sub(u: Vec3, v: Vec3): Vec3 {
    Vec3(u.r - v.r, u.g - v.g, u.b - v.b)
  }

  /** Component-wise product, GLSL `u * v`. */
  function Mul(u: Vec3, v: Vec3): Vec3 {
    Vec3(u.r * v.r, u.g * v.g, u.b * v.b)
  }

  function Scale(u: Vec3, k: real): Vec3 {
    Vec3(u.r * k, u.g * k, u.b * k)
  }

  function Div(u: Vec3, k: real): Vec3
    requires k != 0.0
  {
    Vec3(u.r / k, u.g / k, u.b / k)
  }

  function Dot(u: Vec3, v: Vec3): real {
    u.r * v.r + u.g * v.g + u.b * v.b
  }

  /** Channel `i` of a colour: 0 is red, 1 green, anything else blue. */
  function Channel(u: Vec3, i: nat): real {
    if i == 0 then u.r else if i == 1 then u.g else u.b
  }

  /** GLSL `mix(u, v, t)`, the affine blend `u * (1 - t) + v * t`. */
  function Mix(u: Vec3, v: Vec3, t: real): Vec3 {
    Add(Scale(u, 1.0 - t), Scale(v, t))
  }

  /** GLSL `clamp(x, lo, hi)`, that is `min(max(x, lo), hi)`. */
  function Clamp(x: real, lo: real, hi: real): real {
    var m := if x < lo then lo else x;
    if hi < m then hi else m
  }

  predicate InUnitRange(x: real) {
    0.0 <= x <= 1.0
  }

  predicate InUnitCube(u: Vec3) {
    InUnitRange(u.r) && InUnitRange(u.g) && InUnitRange(u.b)
  }

  lemma MulNonNegative(a: real, b: real)
    requires a >= 0.0 && b >= 0.0
    ensures a * b >= 0.0
  {
  }

  /** A blend with a factor in [0, 1] of two numbers of [0, 1] stays in [0, 1]. */
  lemma MixInUnitRange(a: real, b: real, t: real)
    requires InUnitRange(a) && InUnitRange(b) && InUnitRange(t)
    ensures InUnitRange(a * (1.0 - t) + b * t)
  {
    MulNonNegative(a, 1.0 - t);
    MulNonNegative(b, t);
    MulNonNegative(1.0 - a, 1.0 - t);
    MulNonNegative(1.0 - b, t);
  }

  /** A blend with a factor in [0, 1] of two colours of the unit cube stays in it. */
  lemma MixInUnitCube(u: Vec3, v: Vec3, t: real)
    requires InUnitCube(u) && InUnitCube(v) && InUnitRange(t)
    ensures InUnitCube(Mix(u, v, t))
  {
    MixInUnitRange(u.r, v.r, t);
    MixInUnitRange(u.g, v.g, t);
    MixInUnitRange(u.b, v.b, t);
  }
}
