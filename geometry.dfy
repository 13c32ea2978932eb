/**
 * Integer and real 3-vectors: glam's `IVec3` (chunk keys), `UVec3` (local voxel
 * positions) and `Vec3` (world positions, with f32 modelled as `real`).
 */
module Geometry {

  /** A signed integer 3-vector; i32 wrap-around is not modelled. */
  datatype IVec3 = IVec3(x: int, y: int, z: int) {
    function Add(o: IVec3): IVec3 { IVec3(x + o.x, y + o.y, z + o.z) }
    function Sub(o: IVec3): IVec3 { IVec3(x - o.x, y - o.y, z - o.z) }
  }

  /** An unsigned 3-vector of local voxel coordinates. */
  datatype UVec3 = UVec3(x: nat, y: nat, z: nat) {
    function Add(o: UVec3): UVec3 { UVec3(x + o.x, y + o.y, z + o.z) }
  }

  /** A world-space position. */
  datatype Vec3 = Vec3(x: real, y: real, z: real) {
    function Add(o: Vec3): Vec3 { Vec3(x + o.x, y + o.y, z + o.z) }
    function Sub(o: Vec3): Vec3 { Vec3(x - o.x, y - o.y, z - o.z) }
    function Scale(k: real): Vec3 { Vec3(k * x, k * y, k * z) }
  }

  const ONE: UVec3 := UVec3(1, 1, 1)

  /** `IVec3::as_vec3`. */
  function AsVec3(v: IVec3): Vec3 { Vec3(v.x as real, v.y as real, v.z as real) }

  /** Squared Euclidean distance between two integer points. */
  function Dist2(a: IVec3, b: IVec3): (r: nat)
    ensures r == 0 <==> a == b
  {
    var d := a.Sub(b);
    d.x * d.x + d.y * d.y + d.z * d.z
  }
}
