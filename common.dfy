/** Small value types shared by the modules of the model. */
module Common {

  datatype Option<+T> = None | Some(value: T)

  /** A three-component vector of reals, the model of a `Vector3`. */
  datatype Vec3 = Vec3(x: real, y: real, z: real)
  {
    function Plus(o: Vec3): Vec3 { Vec3(x + o.x, y + o.y, z + o.z) }
    function Times(o: Vec3): Vec3 { Vec3(x * o.x, y * o.y, z * o.z) }
    function Scale(k: real): Vec3 { Vec3(k * x, k * y, k * z) }
  }

  const Zero3 := Vec3(0.0, 0.0, 0.0)

  function Min(a: real, b: real): real { if a <= b then a else b }
  function Max(a: real, b: real): real { if a >= b then a else b }

  /** Identity of a listener object registered with the keyboard router. */
  type ListenerId = nat
  /** Identity of an object that receives `update(delta)` from the frame scheduler. */
  type UpdatableId = nat
}
