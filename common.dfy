/**
 * Shared vocabulary of the learning controllers: the exceptions they throw
 * (as error values), a result wrapper, and three-component vectors.
 */
module Common {

  /** The C++ exception classes (and failed asserts) the controllers raise. */
  datatype Error =
    | InvalidArgument(what: string)
    | RuntimeError(what: string)
    | RangeError(what: string)
    | AssertionFailure(what: string)

  datatype Result<T> = Ok(value: T) | Err(error: Error)

  datatype Option<T> = None | Some(value: T)

  /** A btVector3 (x, y, z); y is the vertical axis of the simulator. */
  datatype Vec3 = Vec3(x: real, y: real, z: real)
  {
    function Plus(o: Vec3): Vec3 { Vec3(x + o.x, y + o.y, z + o.z) }
    function Scale(s: real): Vec3 { Vec3(x * s, y * s, z * s) }
    function Components(): seq<real> { [x, y, z] }
  }

  const Origin := Vec3(0.0, 0.0, 0.0)
}
