/**
 * Block textures (src/core/blocks/state/textures.rs): the list of texture
 * handles of a block state and the pattern that assigns them to the six
 * faces of a block. Loading an asset is modelled by its handle being the
 * asset path it was loaded from.
 */
module Textures {
  import opened Wrappers

  /** The six faces of a block. */
  datatype Direction = Up | Down | North | South | East | West

  datatype BlockTexturePattern = None | Single | TopBottom | TopBottomSides | All | Custom

  /** A loaded texture; `image` is the asset path the handle refers to. */
  datatype BlockTexture = BlockTexture(image: string)

  datatype BlockTextures = BlockTextures(pattern: BlockTexturePattern, textures: seq<BlockTexture>)

  /** `BlockTextures::NONE`. */
  const NONE: BlockTextures := BlockTextures(BlockTexturePattern.None, [])

  const TEXTURE_DIR: string := "textures/blocks/"

  /** The asset path `textures/blocks/{path}`. */
  function AssetPath(path: string): string {
    TEXTURE_DIR + path
  }

  /** The file name a texture was loaded from, when it lies in the texture directory. */
  function FileName(t: BlockTexture): Option<string> {
    if |t.image| >= |TEXTURE_DIR| && t.image[..|TEXTURE_DIR|] == TEXTURE_DIR
    then Some(t.image[|TEXTURE_DIR|..])
    else Option.None
  }

  /** `load_paths`: one texture per path, in order (`LoadPathsImages`, `LoadPathsNames`). */
  function LoadPaths(paths: seq<string>): (r: seq<BlockTexture>)
    ensures |r| == |paths|
  {
    if paths == [] then [] else [BlockTexture(AssetPath(paths[0]))] + LoadPaths(paths[1..])
  }

  /** Texture `i` is loaded from the asset path of path `i`. */
  lemma {:induction false} LoadPathsImages(paths: seq<string>, i: nat)
    requires i < |paths|
    ensures LoadPaths(paths)[i].image == AssetPath(paths[i])
  {
    if i > 0 {
      LoadPathsImages(paths[1..], i - 1);
    }
  }

  /** Every loaded texture lies in the texture directory and gives back the path it was loaded from. */
  lemma LoadPathsNames(paths: seq<string>)
    ensures forall i :: 0 <= i < |paths| ==> FileName(LoadPaths(paths)[i]) == Some(paths[i])
  {
    forall i | 0 <= i < |paths|
      ensures FileName(LoadPaths(paths)[i]) == Some(paths[i])
    {
      LoadPathsImages(paths, i);
      var image := AssetPath(paths[i]);
      assert image[..|TEXTURE_DIR|] == TEXTURE_DIR && image[|TEXTURE_DIR|..] == paths[i];
    }
  }

  /**
   * `BlockTextures::new`: the pattern follows the number of paths (0 none,
   * 1 single, 2 top/bottom, 3 top/bottom/sides, 6 all); any other number is
   * the panic "Invalid number of textures".
   */
  function New(paths: seq<string>): (r: Result<BlockTextures, string>)
    ensures r.Ok? <==> |paths| in {0, 1, 2, 3, 6}
    ensures r.Ok? ==> r.value.textures == LoadPaths(paths)
    ensures r.Ok? ==> (r.value.pattern == BlockTexturePattern.None <==> |paths| == 0)
    ensures r.Ok? ==> r.value.pattern != Custom
  {
    var textures := LoadPaths(paths);
    match |textures|
    case 0 => Ok(BlockTextures(BlockTexturePattern.None, textures))
    case 1 => Ok(BlockTextures(Single, textures))
    case 2 => Ok(BlockTextures(TopBottom, textures))
    case 3 => Ok(BlockTextures(TopBottomSides, textures))
    case 6 => Ok(BlockTextures(All, textures))
    case _ => Err("Invalid number of textures")
  }

  /** `textures.get(i)`. */
  function Get(textures: seq<BlockTexture>, i: nat): (r: Option<BlockTexture>)
    ensures r.Some? <==> i < |textures|
    ensures r.Some? ==> r.value == textures[i]
  {
    if i < |textures| then Some(textures[i]) else Option.None
  }

  /** `get_texture_object`: the texture the pattern assigns to a face. */
  function GetTextureObject(t: BlockTextures, d: Direction): (r: Option<BlockTexture>)
    ensures t.pattern == BlockTexturePattern.None || t.pattern == Custom ==> r == Option.None
    ensures r.Some? ==> r.value in t.textures
  {
    match t.pattern
    case None => Option.None
    case Custom => Option.None
    case Single => Get(t.textures, 0)
    case TopBottom =>
      (match d
       case Up => Get(t.textures, 0)
       case Down => Get(t.textures, 0)
       case _ => Get(t.textures, 1))
    case TopBottomSides =>
      (match d
       case Up => Get(t.textures, 0)
       case Down => Get(t.textures, 1)
       case _ => Get(t.textures, 2))
    case All =>
      (match d
       case Up => Get(t.textures, 0)
       case Down => Get(t.textures, 1)
       case North => Get(t.textures, 2)
       case South => Get(t.textures, 3)
       case East => Get(t.textures, 4)
       case West => Get(t.textures, 5))
  }

  /** `get_texture`: the image handle of the face's texture. */
  function GetTexture(t: BlockTextures, d: Direction): (r: Option<string>)
    ensures r.Some? <==> GetTextureObject(t, d).Some?
    ensures r.Some? ==> exists i :: 0 <= i < |t.textures| && r.value == t.textures[i].image
  {
    match GetTextureObject(t, d)
    case None => Option.None
    case Some(o) => Some(o.image)
  }

  /**
   * The face-to-path table, stated per number of textures: one texture covers
   * every face; two give top and bottom the first and the sides the second;
   * three give the top, the bottom and the sides one each; six give one each
   * to up, down, north, south, east and west.
   */
  function FaceIndex(count: nat, d: Direction): (i: nat)
    ensures count in {1, 2, 3, 6} ==> i < count
  {
    if count == 1 then 0
    else if count == 2 then (if d == Up || d == Down then 0 else 1)
    else if count == 3 then (if d == Up then 0 else if d == Down then 1 else 2)
    else if d == Up then 0
    else if d == Down then 1
    else if d == North then 2
    else if d == South then 3
    else if d == East then 4
    else 5
  }

  /**
   * Textures built from `paths` give every face the image loaded from the path
   * the table assigns to it; with at least one path, every face has a texture.
   */
  lemma NewFaces(paths: seq<string>, d: Direction)
    requires New(paths).Ok? && |paths| > 0
    ensures FaceIndex(|paths|, d) < |paths|
    ensures GetTexture(New(paths).value, d) == Some(AssetPath(paths[FaceIndex(|paths|, d)]))
  {
    LoadPathsImages(paths, FaceIndex(|paths|, d));
  }

  /** Without paths the textures are `NONE`, which gives no face a texture. */
  lemma NewEmpty(d: Direction)
    ensures New([]) == Ok(NONE)
    ensures GetTexture(NONE, d) == Option.None
  {
  }

  /** With all six textures, different faces show different paths' images. */
  lemma AllFacesDistinct(paths: seq<string>, d1: Direction, d2: Direction)
    requires |paths| == 6 && d1 != d2
    ensures FaceIndex(6, d1) != FaceIndex(6, d2)
    ensures New(paths).value.pattern == All
  {
  }
}
