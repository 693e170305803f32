/** Small value types shared by the enemy model: an optional value (for Unity's
    nullable references) and a three-component vector (for positions the
    navigation agent is sent to). */
module Basics {

  datatype Option<+T> = None | Some(value: T)

  /** A world-space point or direction. Only addition and scaling are needed:
      distances and angles reach the model as measured inputs. */
  datatype Vec3 = Vec3(x: real, y: real, z: real)

  function Add(a: Vec3, b: Vec3): Vec3 {
    Vec3(a.x + b.x, a.y + b.y, a.z + b.z)
  }

  function Scale(a: Vec3, k: real): Vec3 {
    Vec3(a.x * k, a.y * k, a.z * k)
  }
}
