/**
 * The few three.js values the animation engine touches, as free terms: a
 * quaternion or a position records the operations that produced it. Rotation
 * arithmetic itself (floating point) stays outside the model, so two poses are
 * equal exactly when they were built by the same operations from equal inputs.
 */
module Scene {
  import opened Wrappers
  import opened Utils

  /** three.js `Quaternion`. */
  datatype Quaternion =
    | IdentityQuaternion                             // the rotation of a new Object3D
    | FromRotationMatrix(m: Matrix4)                 // Quaternion.setFromRotationMatrix
    | FromAxisAngle(axis: Vector3, angle: real)      // Quaternion.setFromAxisAngle
    | Product(left: Quaternion, right: Quaternion)   // left * right (Quaternion.premultiply)

  /** The position of an object: set from coordinates, or an earlier position rotated. */
  datatype Point = At(coordinates: Vector3) | RotatedBy(prior: Point, rotation: Quaternion)

  /** `Object3D.applyQuaternion`: the rotation q is applied after the current one. */
  function ApplyToOrientation(q: Quaternion, current: Quaternion): Quaternion {
    Product(q, current)
  }

  /** `Vector3.applyQuaternion` on a position. */
  function ApplyToPoint(q: Quaternion, p: Point): Point {
    RotatedBy(p, q)
  }

  function Component(v: Vector3, index: nat): real
    requires index < 3
  {
    if index == 0 then v.x else if index == 1 then v.y else v.z
  }

  /** `Vector3.setComponent`: indices 0, 1 and 2 name x, y and z; three.js throws for any other. */
  function SetComponent(v: Vector3, index: int, value: real): (r: Result<Vector3>)
    ensures r.Ok? <==> 0 <= index < 3
    ensures r.Ok? ==> Component(r.value, index) == value
    ensures r.Ok? ==> forall j :: 0 <= j < 3 && j != index ==> Component(r.value, j) == Component(v, j)
  {
    if index == 0 then Ok(Vector3(value, v.y, v.z))
    else if index == 1 then Ok(Vector3(v.x, value, v.z))
    else if index == 2 then Ok(Vector3(v.x, v.y, value))
    else Err("index is out of range")
  }

  /** The canvas the cube is drawn on; only its CSS opacity is modelled, as a number. */
  class Canvas {
    var opacity: real

    constructor ()
      ensures opacity == 1.0
    {
      opacity := 1.0;
    }
  }
}
