/**
 * The noise-field side of terrain generation (src/core/terraingen/noise.rs):
 * the post-scaling of the three raw fractal fields and the `Heightmap` view that
 * reads a field at a column. The fractal noise itself is an input.
 */
module Noise {

  function Abs(x: real): real {
    if x < 0.0 then -x else x
  }

  /** `map(|x| x.abs() * k)`: elementwise magnitude times `k`. */
  function ScaleField(noise: seq<real>, k: real): (r: seq<real>)
    ensures |r| == |noise|
    ensures forall i :: 0 <= i < |noise| ==> r[i] == Abs(noise[i]) * k
    ensures k >= 0.0 ==> forall i :: 0 <= i < |r| ==> r[i] >= 0.0
  {
    seq(|noise|, i requires 0 <= i < |noise| => Abs(noise[i]) * k)
  }

  const EROSION_SCALE: real := 700.0
  const PEAKS_VALLEYS_SCALE: real := 1200.0
  const CONTINENTALNESS_SCALE: real := 1400.0

  /** `get_chunk_erosion` after the fractal noise: the field scaled by 700, never negative. */
  function ChunkErosion(raw: seq<real>): (r: seq<real>)
    ensures |r| == |raw| && forall i :: 0 <= i < |r| ==> r[i] >= 0.0
  {
    ScaleField(raw, EROSION_SCALE)
  }

  /** `get_chunk_peaks_valleys` after the fractal noise: scaled by 1200, never negative. */
  function ChunkPeaksValleys(raw: seq<real>): (r: seq<real>)
    ensures |r| == |raw| && forall i :: 0 <= i < |r| ==> r[i] >= 0.0
  {
    ScaleField(raw, PEAKS_VALLEYS_SCALE)
  }

  /** `get_chunk_continentalness` after the fractal noise: scaled by 1400, never negative. */
  function ChunkContinentalness(raw: seq<real>): (r: seq<real>)
    ensures |r| == |raw| && forall i :: 0 <= i < |r| ==> r[i] >= 0.0
  {
    ScaleField(raw, CONTINENTALNESS_SCALE)
  }

  /** `Heightmap<W, H>`: a read-only view of a slice as W x H values, row by row. */
  datatype Heightmap = Heightmap(w: nat, h: nat, slice: seq<real>) {

    /** The slice index of column `(x, z)`: `z * W + x`. */
    function Index(x: nat, z: nat): nat {
      z * w + x
    }

    /** Reading `(x, z)` stays inside the slice. */
    predicate CanRead(x: nat, z: nat) {
      Index(x, z) < |slice|
    }

    /** `getf`: the raw value at `(x, z)`. */
    function Getf(x: nat, z: nat): real
      requires CanRead(x, z)
    {
      slice[Index(x, z)]
    }

    /** `get`: the same cell as `getf`, rounded half away from zero, then cast to `u32`. */
    function Get(x: nat, z: nat): (r: nat)
      requires CanRead(x, z)
      ensures r == CastU32(RoundHalfAway(Getf(x, z)))
      ensures 0.0 <= Getf(x, z) <= U32_MAX as real ==> r as real - 0.5 <= Getf(x, z) <= r as real + 0.5
      ensures Getf(x, z) <= 0.0 ==> r == 0
    {
      CastU32(RoundHalfAway(slice[Index(x, z)]))
    }
  }

  /**
   * `from_slice`: wraps the slice as is, with no copy and no length check; reads
   * are in bounds for every column of the W x H grid exactly when the slice is
   * long enough.
   */
  function FromSlice(w: nat, h: nat, slice: seq<real>): (m: Heightmap)
    ensures m.w == w && m.h == h && m.slice == slice
    ensures (forall x: nat, z: nat :: x < w && z < h ==> m.CanRead(x, z)) <== |slice| >= w * h
  {
    var m := Heightmap(w, h, slice);
    GridIndexBounds(m);
    m
  }

  /** On the W x H grid the index map is injective and lands in [0, W*H). */
  lemma GridIndexBounds(m: Heightmap)
    ensures forall x: nat, z: nat :: x < m.w && z < m.h ==> m.Index(x, z) < m.w * m.h
  {
    forall x: nat, z: nat | x < m.w && z < m.h
      ensures m.Index(x, z) < m.w * m.h
    {
      assert z * m.w + x < z * m.w + m.w == (z + 1) * m.w;
      assert (z + 1) * m.w <= m.h * m.w by {
        MulMonotone(z + 1, m.h, m.w);
      }
    }
  }

  lemma MulMonotone(a: nat, b: nat, c: nat)
    requires a <= b
    ensures a * c <= b * c
  {
  }

  /** Distinct columns of the grid read distinct slice cells. */
  lemma GridIndexInjective(m: Heightmap, x1: nat, z1: nat, x2: nat, z2: nat)
    requires x1 < m.w && x2 < m.w
    requires m.Index(x1, z1) == m.Index(x2, z2)
    ensures x1 == x2 && z1 == z2
  {
    if z1 != z2 {
      var lo, hi, xlo := if z1 < z2 then z1 else z2, if z1 < z2 then z2 else z1, if z1 < z2 then x1 else x2;
      IndexBelowNextRow(m, xlo, lo, hi);
    }
  }

  /** Every cell of row `z` comes before every cell of a later row. */
  lemma IndexBelowNextRow(m: Heightmap, x: nat, z: nat, z': nat)
    requires x < m.w && z < z'
    ensures m.Index(x, z) < z' * m.w
  {
    MulMonotone(z + 1, z', m.w);
  }

  const U32_MAX: nat := 0xFFFF_FFFF

  /** `f32::round`: to the nearest integer, halves away from zero. */
  function RoundHalfAway(v: real): (n: int)
    ensures v >= 0.0 ==> n as real - 0.5 <= v < n as real + 0.5
    ensures v < 0.0 ==> n as real - 0.5 < v <= n as real + 0.5
  {
    if v >= 0.0 then (v + 0.5).Floor else -((-v + 0.5).Floor)
  }

  /** `as u32` from a float: saturating at both ends. */
  function CastU32(n: int): (r: nat)
    ensures r <= U32_MAX
    ensures 0 <= n <= U32_MAX ==> r == n
    ensures n < 0 ==> r == 0
    ensures n > U32_MAX ==> r == U32_MAX
  {
    if n < 0 then 0 else if n > U32_MAX then U32_MAX else n
  }
}
