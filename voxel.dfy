/**
 * The `Voxel` type of src/voxel/voxel.rs: a 16-bit block id with the
 * visibility and merge classification the greedy mesher asks of it.
 */
module Voxels {

  /** An unsigned 16-bit integer. */
  newtype u16 = x: int | 0 <= x < 0x1_0000

  /** A voxel; equality is equality of the raw id (derived `PartialEq`). */
  datatype Voxel = Voxel(id: u16)

  /** `Voxel::EMPTY_VOXEL`. */
  const EMPTY_VOXEL: Voxel := Voxel(0)

  /** `Default for Voxel`: the empty voxel. */
  function Default(): (v: Voxel)
    ensures v.id == 0
  {
    EMPTY_VOXEL
  }

  /** `block_mesh::VoxelVisibility`. */
  datatype Visibility = Empty | Translucent | Opaque

  /** `get_visibility`: ids 0 and 1 (air) are empty, id 8 is translucent, the rest opaque. */
  function GetVisibility(v: Voxel): (r: Visibility)
    ensures r == Empty <==> v.id == 0 || v.id == 1
    ensures r == Translucent <==> v.id == 8
    ensures r == Opaque <==> v.id != 0 && v.id != 1 && v.id != 8
  {
    match v
    case Voxel(0) => Empty
    case Voxel(1) => Empty
    case Voxel(8) => Translucent
    case _ => Opaque
  }

  /** `merge_value`: the raw id; two voxels merge exactly when they are equal. */
  function MergeValue(v: Voxel): u16
  {
    v.id
  }

  /** Merge-equality coincides with voxel equality. */
  lemma MergeEqualIffEqual(v: Voxel, w: Voxel)
    ensures MergeValue(v) == MergeValue(w) <==> v == w
  {
  }

  /** `as_mat_id`: the raw id, used as the material index of a face. */
  function AsMatId(v: Voxel): (r: u16)
    ensures Voxel(r) == v
  {
    v.id
  }

  /**
   * The voxels of the base materials the world registers (air, rock, water and
   * the world-bottom border); their ids come from the material registry, which
   * is not part of this model, except that air's id is 1.
   */
  datatype MaterialIds = MaterialIds(air: Voxel, rock: Voxel, water: Voxel, border: Voxel)

  /** Air has id 1, as the visibility table assumes. */
  predicate AirIsId1(m: MaterialIds) {
    m.air == Voxel(1)
  }
}
