/**
 * The terrain generator of src/voxel/terraingen/mod.rs: the biome registries,
 * the humidity/temperature biome choice, and the column fill that writes rock
 * below each column's surface, water up to the sea level and the world-bottom
 * border last.
 */
module TerrainGen {
  import opened Geometry
  import opened Voxels
  import opened Storage
  import opened Noise

  /** The biome generators the plugin registers. */
  datatype Biome = BasicPlains | BasicDesert | BasicSnowyPlains

  /** The surface level every column starts from. */
  const BASE_SURFACE: int := 62
  /** Water fills up to, excluding, this height. */
  const SEA_LEVEL: int := 64

  /** `TerrainGenerator`: the chance-keyed biome map and the biome list. */
  class TerrainGenerator {
    var biomesMap: map<real, Biome>
    var biomeList: seq<Biome>

    /** `Default`: both registries empty. */
    constructor ()
      ensures biomesMap == map[] && biomeList == []
    {
      biomesMap := map[];
      biomeList := [];
    }

    /** `register_biome_generator`: keyed by chance, a repeated chance replaces the earlier biome. */
    method RegisterBiomeGenerator(chance: real, biome: Biome)
      modifies this
      ensures biomesMap == old(biomesMap)[chance := biome] && biomeList == old(biomeList)
    {
      biomesMap := biomesMap[chance := biome];
    }

    /** `register_biome`: appends, so biomes are indexed in registration order. */
    method RegisterBiome(biome: Biome)
      modifies this
      ensures biomeList == old(biomeList) + [biome] && biomesMap == old(biomesMap)
    {
      biomeList := biomeList + [biome];
    }

    /**
     * `biome_at_xz`: the biome chosen by the humidity and temperature read at
     * column `(x, z)`; the `i32 as u32` casts are two's-complement.
     */
    function BiomeAtXz(x: int, z: int, humidityMap: Heightmap, temperatureMap: Heightmap): (b: Biome)
      reads this
      requires humidityMap.CanRead(AsU32(x), AsU32(z)) && temperatureMap.CanRead(AsU32(x), AsU32(z))
      requires BiomeChoice(humidityMap.Getf(AsU32(x), AsU32(z)), temperatureMap.Getf(AsU32(x), AsU32(z))) < |biomeList|
      ensures b == biomeList[BiomeChoice(humidityMap.Getf(AsU32(x), AsU32(z)), temperatureMap.Getf(AsU32(x), AsU32(z)))]
    {
      var humidity := humidityMap.Getf(AsU32(x), AsU32(z));
      var temperature := temperatureMap.Getf(AsU32(x), AsU32(z));
      if humidity > 0.8 && temperature < 0.2 then biomeList[2]
      else if humidity > 0.8 && temperature > 0.2 then biomeList[1]
      else biomeList[0]
    }
  }

  /** `i32 as u32`. */
  function AsU32(v: int): nat {
    v % 0x1_0000_0000
  }

  /**
   * The decision table of `biome_at_xz`: wet and cold is index 2, wet and warm
   * index 1, anything else (dry, or exactly at the 0.2 temperature threshold)
   * index 0.
   */
  function BiomeChoice(humidity: real, temperature: real): (i: nat)
    ensures i < 3
    ensures i == 2 <==> humidity > 0.8 && temperature < 0.2
    ensures i == 1 <==> humidity > 0.8 && temperature > 0.2
    ensures i == 0 <==> humidity <= 0.8 || temperature == 0.2
  {
    if humidity > 0.8 && temperature < 0.2 then 2
    else if humidity > 0.8 && temperature > 0.2 then 1
    else 0
  }

  /** `TerrainGeneratorPlugin::build`: plains, desert and snowy plains, in that order. */
  method RegisterDefaultBiomes(g: TerrainGenerator)
    modifies g
    ensures g.biomeList == old(g.biomeList) + [BasicPlains, BasicDesert, BasicSnowyPlains]
    ensures g.biomesMap == old(g.biomesMap)
  {
    g.RegisterBiome(BasicPlains);
    g.RegisterBiome(BasicDesert);
    g.RegisterBiome(BasicSnowyPlains);
  }

  /** On the plugin's generator, plains is index 0, desert 1 and snowy plains 2. */
  lemma DefaultBiomeIndices(list: seq<Biome>, humidity: real, temperature: real)
    requires list == [BasicPlains, BasicDesert, BasicSnowyPlains]
    ensures list[BiomeChoice(humidity, temperature)] == BasicSnowyPlains <==> humidity > 0.8 && temperature < 0.2
    ensures list[BiomeChoice(humidity, temperature)] == BasicDesert <==> humidity > 0.8 && temperature > 0.2
  {
  }

  /** The three post-scaled noise fields of one chunk, as Heightmap views. */
  datatype ChunkNoise = ChunkNoise(continentalness: Heightmap, erosion: Heightmap, peaksValleys: Heightmap)

  /**
   * The noise views `generate` builds from the raw fractal fields of the chunk
   * (the `fbm_2d_offset` output for the key and seed, an input here).
   */
  function ChunkNoiseFrom(rawContinentalness: seq<real>, rawErosion: seq<real>, rawPeaksValleys: seq<real>): (n: ChunkNoise)
    ensures n.continentalness.slice == ChunkContinentalness(rawContinentalness)
    ensures n.erosion.slice == ChunkErosion(rawErosion)
    ensures n.peaksValleys.slice == ChunkPeaksValleys(rawPeaksValleys)
  {
    ChunkNoise(
      FromSlice(CHUNK_LENGTH, CHUNK_LENGTH, ChunkContinentalness(rawContinentalness)),
      FromSlice(CHUNK_LENGTH, CHUNK_LENGTH, ChunkErosion(rawErosion)),
      FromSlice(CHUNK_LENGTH, CHUNK_LENGTH, ChunkPeaksValleys(rawPeaksValleys)))
  }

  /** Every column of the chunk can be read from all three fields. */
  ghost predicate NoiseCoversChunk(n: ChunkNoise) {
    forall x: nat, z: nat :: x < CHUNK_LENGTH && z < CHUNK_LENGTH ==>
      n.continentalness.CanRead(x, z) && n.erosion.CanRead(x, z) && n.peaksValleys.CanRead(x, z)
  }

  /** `f32 as i32`: truncation toward zero, saturating at the `i32` range. */
  function AsI32(v: real): (n: int)
    ensures I32_MIN <= n <= I32_MAX
    ensures I32_MIN as real <= v <= I32_MAX as real ==> -1.0 < v - n as real < 1.0
    ensures I32_MIN as real <= v <= I32_MAX as real ==> (v >= 0.0 ==> n as real <= v) && (v <= 0.0 ==> v <= n as real)
    ensures v >= 0.0 ==> n >= 0
  {
    if v <= I32_MIN as real then I32_MIN
    else if v >= I32_MAX as real then I32_MAX
    else if v >= 0.0 then v.Floor
    else -((-v).Floor)
  }

  const I32_MIN: int := -0x8000_0000
  const I32_MAX: int := 0x7FFF_FFFF

  /** A column's offset from the base level: the weighted noise sum, cast to `i32`. */
  function ColumnOffset(continentalness: real, erosion: real, peaksValleys: real): int {
    AsI32(continentalness * 0.5 + erosion * 0.3 + peaksValleys * 0.2)
  }

  /** The surface level of column `(x, z)`: the base level plus the column's offset. */
  function SurfaceAt(n: ChunkNoise, x: nat, z: nat): int
    requires n.continentalness.CanRead(x, z) && n.erosion.CanRead(x, z) && n.peaksValleys.CanRead(x, z)
  {
    BASE_SURFACE + ColumnOffset(n.continentalness.Getf(x, z), n.erosion.Getf(x, z), n.peaksValleys.Getf(x, z))
  }

  /**
   * The generated noise fields are never negative, so no column's surface lies
   * below the base level of 62 when the raw fields cover the chunk.
   */
  lemma SurfaceAboveBase(rawContinentalness: seq<real>, rawErosion: seq<real>, rawPeaksValleys: seq<real>, x: nat, z: nat)
    requires |rawContinentalness| >= 1024 && |rawErosion| >= 1024 && |rawPeaksValleys| >= 1024
    requires x < CHUNK_LENGTH && z < CHUNK_LENGTH
    ensures var n := ChunkNoiseFrom(rawContinentalness, rawErosion, rawPeaksValleys);
      n.continentalness.CanRead(x, z) && n.erosion.CanRead(x, z) && n.peaksValleys.CanRead(x, z) &&
      SurfaceAt(n, x, z) >= BASE_SURFACE
  {
    var n := ChunkNoiseFrom(rawContinentalness, rawErosion, rawPeaksValleys);
    assert n.continentalness.CanRead(x, z) && n.erosion.CanRead(x, z) && n.peaksValleys.CanRead(x, z);
    assert n.continentalness.Getf(x, z) >= 0.0;
    assert n.erosion.Getf(x, z) >= 0.0;
    assert n.peaksValleys.Getf(x, z) >= 0.0;
  }

  /** Every column's surface lies within the chunk height, so every write is in bounds. */
  ghost predicate SurfacesInChunk(n: ChunkNoise) {
    NoiseCoversChunk(n) &&
    forall x: nat, z: nat :: x < CHUNK_LENGTH && z < CHUNK_LENGTH ==> 0 <= SurfaceAt(n, x, z) <= CHUNK_HEIGHT
  }

  /** A cell of a column with surface `s` after the column fill. */
  function ColumnCell(s: int, y: nat, m: MaterialIds, before: Voxel): Voxel {
    if y < s then m.rock else if y < SEA_LEVEL then m.water else before
  }

  /**
   * One iteration of the column loop: rock for `0 <= h < s`, then water for
   * `s <= h < 64`; no other cell changes.
   */
  method FillColumn(buffer: VoxelBuffer, x: nat, z: nat, s: int, m: MaterialIds)
    requires buffer.Valid() && IsChunkShape(buffer.shape)
    requires x < CHUNK_LENGTH && z < CHUNK_LENGTH && 0 <= s <= CHUNK_HEIGHT
    modifies buffer.data
    ensures forall p :: buffer.shape.InBounds(p) ==>
              buffer.VoxelAt(p) == if p.x == x && p.z == z then ColumnCell(s, p.y, m, old(buffer.VoxelAt(p))) else old(buffer.VoxelAt(p))
  {
    var h := 0;
    while h < s
      invariant 0 <= h <= s
      invariant forall p :: buffer.shape.InBounds(p) ==>
                  buffer.VoxelAt(p) == if p.x == x && p.z == z && p.y < h then m.rock else old(buffer.VoxelAt(p))
    {
      buffer.Set(UVec3(x, h, z), m.rock);
      h := h + 1;
    }
    h := s;
    while h < SEA_LEVEL
      invariant s <= h && (h <= SEA_LEVEL || h == s)
      invariant forall p :: buffer.shape.InBounds(p) ==>
                  buffer.VoxelAt(p) == if p.x == x && p.z == z && p.y < h then ColumnCell(s, p.y, m, old(buffer.VoxelAt(p))) else old(buffer.VoxelAt(p))
    {
      buffer.Set(UVec3(x, h, z), m.water);
      h := h + 1;
    }
  }

  /** The extent of the world-bottom border: the whole footprint, one voxel thick. */
  const BOTTOM_BORDER: Extent := Extent(UVec3(0, 0, 0), UVec3(CHUNK_LENGTH, 1, CHUNK_LENGTH))

  /**
   * One row of the column loop: each column's surface is the base level plus
   * its offset, and the level is reset to the base after the column.
   */
  method FillRow(buffer: VoxelBuffer, z: nat, n: ChunkNoise, m: MaterialIds)
    requires buffer.Valid() && IsChunkShape(buffer.shape)
    requires SurfacesInChunk(n) && z < CHUNK_LENGTH
    modifies buffer.data
    ensures forall p :: buffer.shape.InBounds(p) ==>
              buffer.VoxelAt(p) == if p.z == z then ColumnCell(SurfaceAt(n, p.x, p.z), p.y, m, old(buffer.VoxelAt(p)))
                                   else old(buffer.VoxelAt(p))
  {
    var surfaceLevel := BASE_SURFACE;
    var x := 0;
    while x < CHUNK_LENGTH
      invariant 0 <= x <= CHUNK_LENGTH && surfaceLevel == BASE_SURFACE
      invariant forall p :: buffer.shape.InBounds(p) ==>
                  buffer.VoxelAt(p) == if p.z == z && p.x < x then ColumnCell(SurfaceAt(n, p.x, p.z), p.y, m, old(buffer.VoxelAt(p)))
                                       else old(buffer.VoxelAt(p))
    {
      surfaceLevel := surfaceLevel + ColumnOffset(n.continentalness.Getf(x, z), n.erosion.Getf(x, z), n.peaksValleys.Getf(x, z));
      assert surfaceLevel == SurfaceAt(n, x, z);
      FillColumn(buffer, x, z, surfaceLevel, m);
      surfaceLevel := BASE_SURFACE;
      x := x + 1;
    }
  }

  /**
   * `generate`: every column `(x, z)` of the chunk is filled once from its own
   * surface level; then the bottom layer becomes the border. Cells above both
   * the surface and the sea level keep their previous contents.
   */
  method Generate(chunkKey: IVec3, buffer: VoxelBuffer, seed: int, n: ChunkNoise, m: MaterialIds)
    requires buffer.Valid() && IsChunkShape(buffer.shape)
    requires SurfacesInChunk(n)
    modifies buffer.data
    ensures forall p :: buffer.shape.InBounds(p) ==> buffer.VoxelAt(p) == GeneratedCell(n, m, p, old(buffer.VoxelAt(p)))
  {
    var z := 0;
    while z < CHUNK_LENGTH
      invariant 0 <= z <= CHUNK_LENGTH
      invariant forall p :: buffer.shape.InBounds(p) ==>
                  buffer.VoxelAt(p) == if p.z < z then ColumnCell(SurfaceAt(n, p.x, p.z), p.y, m, old(buffer.VoxelAt(p)))
                                       else old(buffer.VoxelAt(p))
    {
      FillRow(buffer, z, n, m);
      z := z + 1;
    }
    buffer.FillExtent(BOTTOM_BORDER, m.border);
  }

  /** A cell after `generate`: the border at the bottom, else its column's fill. */
  ghost function GeneratedCell(n: ChunkNoise, m: MaterialIds, p: UVec3, before: Voxel): Voxel
    requires SurfacesInChunk(n) && p.x < CHUNK_LENGTH && p.z < CHUNK_LENGTH
  {
    if p.y == 0 then m.border else ColumnCell(SurfaceAt(n, p.x, p.z), p.y, m, before)
  }

  /**
   * What generation leaves in each cell: the border on the bottom layer, rock
   * below the column's surface, water from the surface up to the sea level, and
   * above both the previous contents (empty for a fresh buffer).
   */
  lemma GeneratedCellCases(n: ChunkNoise, m: MaterialIds, p: UVec3, before: Voxel)
    requires SurfacesInChunk(n) && p.x < CHUNK_LENGTH && p.z < CHUNK_LENGTH
    ensures var s, c := SurfaceAt(n, p.x, p.z), GeneratedCell(n, m, p, before);
      && (p.y == 0 ==> c == m.border)
      && (0 < p.y < s ==> c == m.rock)
      && (0 < p.y && s <= p.y < SEA_LEVEL ==> c == m.water)
      && (0 < p.y && p.y >= s && p.y >= SEA_LEVEL ==> c == before)
  {
  }
}
