/** Values shared by the whole model: the engine's three-component vector, an
    optional value, the keyboard keys the systems read, and the two
    single-precision constants the code relies on.
    Single-precision numbers are modelled as exact reals. */
module Common {

  datatype Option<T> = None | Some(value: T)

  /** A three-component vector (the engine's `Vec3`). */
  datatype Vec3 = Vec3(x: real, y: real, z: real)

  const Zero: Vec3 := Vec3(0.0, 0.0, 0.0)

  /** The machine epsilon of 32-bit floats, 2^-23. */
  const F32Epsilon: real := 0.00000011920928955078125

  /** The 32-bit float nearest to pi. */
  const F32Pi: real := 3.1415927410125732421875

  /** The keyboard keys the systems read; every other key is `OtherKey`. */
  datatype KeyCode = W | A | S | D | Space | LControl | F10 | OtherKey(code: nat)
}
