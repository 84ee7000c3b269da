/**
  Values shared by the player, joystick and dust models: an optional value
  (for references that may not be attached yet and lookups that may fail)
  and the three-component vectors that three.js and Rapier pass around.
  JavaScript numbers are modelled as mathematical reals.
 */
module Common {

  datatype Option<T> = None | Some(value: T)

  /** A three.js `Vector3` / Rapier translation, impulse or torque. */
  datatype Vec3 = Vec3(x: real, y: real, z: real)

  const Zero := Vec3(0.0, 0.0, 0.0)

  function Add(a: Vec3, b: Vec3): Vec3 {
    Vec3(a.x + b.x, a.y + b.y, a.z + b.z)
  }

  function Sub(a: Vec3, b: Vec3): Vec3 {
    Vec3(a.x - b.x, a.y - b.y, a.z - b.z)
  }

  function Scale(a: Vec3, k: real): Vec3 {
    Vec3(a.x * k, a.y * k, a.z * k)
  }

  /** `Math.max` of two numbers. */
  function Max(a: real, b: real): real {
    if a >= b then a else b
  }

  /** `Math.min` of two numbers. */
  function Min(a: real, b: real): real {
    if a <= b then a else b
  }

  /** `x` lies on the closed segment between `a` and `b`, in either order. */
  predicate Between(a: real, x: real, b: real) {
    (a <= x <= b) || (b <= x <= a)
  }
}
