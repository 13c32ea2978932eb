/**
 * Where a chunk lives on disk (src/voxel/world/terrain.rs): the world's save
 * directory `<data dir>/.yavafg/saved_worlds/<world name>` and, inside it, one
 * file per chunk named after the key's `Display` form, `[x, y, z].chunk`.
 */
module ChunkPaths {
  import opened Geometry

  /** The decimal digit of `d`. */
  function Digit(d: nat): char
    requires d < 10
  {
    "0123456789"[d]
  }

  predicate IsDigit(c: char) {
    '0' <= c <= '9'
  }

  /** The decimal form of `n`, most significant digit first, with no leading zeros. */
  function NatToString(n: nat): (s: string)
    ensures |s| >= 1 && forall i :: 0 <= i < |s| ==> IsDigit(s[i])
    ensures |s| == 1 <==> n < 10
  {
    if n < 10 then [Digit(n)] else NatToString(n / 10) + [Digit(n % 10)]
  }

  /** The `Display` form of an `i32`: a minus sign before a negative number. */
  function IntToString(i: int): (s: string)
    ensures |s| >= 1 && CommaFree(s)
    ensures s[0] == '-' <==> i < 0
  {
    if i < 0 then "-" + NatToString(-i) else NatToString(i)
  }

  /** glam's `Display` for `IVec3`: `[x, y, z]`. */
  function KeyDisplay(k: IVec3): string {
    "[" + IntToString(k.x) + ", " + IntToString(k.y) + ", " + IntToString(k.z) + "]"
  }

  /** `data_dir().join(".yavafg").join("saved_worlds").join(world_name)`. */
  function SavesDir(dataDir: string, worldName: string): string {
    dataDir + "/.yavafg/saved_worlds/" + worldName
  }

  /** `saves_dir.join(format!("{}.chunk", key))`. */
  function ChunkPath(dataDir: string, worldName: string, key: IVec3): string {
    SavesDir(dataDir, worldName) + "/" + KeyDisplay(key) + ".chunk"
  }

  /** Distinct numbers print differently. */
  lemma {:induction false} NatToStringInjective(n: nat, m: nat)
    ensures NatToString(n) == NatToString(m) ==> n == m
  {
    if NatToString(n) == NatToString(m) {
      if n >= 10 && m >= 10 {
        var s, t := NatToString(n), NatToString(m);
        assert s[..|s| - 1] == NatToString(n / 10);
        assert t[..|t| - 1] == NatToString(m / 10);
        NatToStringInjective(n / 10, m / 10);
        assert Digit(n % 10) == s[|s| - 1] == Digit(m % 10);
      }
    }
  }

  /** Distinct integers print differently. */
  lemma IntToStringInjective(i: int, j: int)
    ensures IntToString(i) == IntToString(j) ==> i == j
  {
    if IntToString(i) == IntToString(j) {
      if i < 0 {
        assert IntToString(i)[1..] == NatToString(-i);
        assert IntToString(j)[1..] == NatToString(-j);
        NatToStringInjective(-i, -j);
      } else {
        NatToStringInjective(i, j);
      }
    }
  }

  /** The index of the first comma of `s`, or `|s|` when there is none. */
  function FirstComma(s: string): (i: nat)
    ensures i <= |s|
  {
    if s == [] then 0 else if s[0] == ',' then 0 else 1 + FirstComma(s[1..])
  }

  predicate CommaFree(s: string) {
    forall i :: 0 <= i < |s| ==> s[i] != ','
  }

  /** A comma-free text followed by a comma is recovered from the whole. */
  lemma {:induction false} PeelBeforeComma(a: string, rest: string)
    requires CommaFree(a) && |rest| >= 1 && rest[0] == ','
    ensures FirstComma(a + rest) == |a|
    ensures (a + rest)[..|a|] == a && (a + rest)[|a|..] == rest
  {
    if a == [] {
      assert a + rest == rest;
    } else {
      assert (a + rest)[0] == a[0];
      assert (a + rest)[1..] == a[1..] + rest;
      PeelBeforeComma(a[1..], rest);
    }
  }

  /** `", " + y + ", " + z + "]"`: what follows the first coordinate. */
  function AfterX(y: string, z: string): string {
    ", " + AfterY(y, z)
  }

  /** `y + ", " + z + "]"`. */
  function AfterY(y: string, z: string): string {
    y + AfterZ(z)
  }

  /** `", " + z + "]"`. */
  function AfterZ(z: string): string {
    ", " + (z + "]")
  }

  /** The `Display` form, grouped so that each coordinate is followed by its separator. */
  lemma KeyDisplayGrouped(k: IVec3)
    ensures KeyDisplay(k)[1..] == IntToString(k.x) + AfterX(IntToString(k.y), IntToString(k.z))
  {
    var x, y, z := IntToString(k.x), IntToString(k.y), IntToString(k.z);
    calc {
      KeyDisplay(k);
      "[" + x + ", " + y + ", " + z + "]";
      { SeqAssoc4("[" + x, ", ", y, ", " + (z + "]")); }
      "[" + x + (", " + (y + (", " + (z + "]"))));
      "[" + (x + AfterX(y, z));
    }
    assert ("[" + (x + AfterX(y, z)))[1..] == x + AfterX(y, z);
  }

  /** Regrouping a concatenation of four parts to the right. */
  lemma SeqAssoc4(a: string, b: string, c: string, d: string)
    ensures a + b + c + d == a + (b + (c + d))
  {
  }

  /** Equal coordinate texts and separators are recovered from the whole. */
  lemma SplitCoordinate(a: string, rest: string, a': string, rest': string)
    requires CommaFree(a) && CommaFree(a') && |rest| >= 1 && |rest'| >= 1 && rest[0] == ',' && rest'[0] == ','
    requires a + rest == a' + rest'
    ensures a == a' && rest == rest'
  {
    PeelBeforeComma(a, rest);
    PeelBeforeComma(a', rest');
  }

  /** Distinct keys are displayed differently. */
  lemma KeyDisplayInjective(k: IVec3, k': IVec3)
    ensures KeyDisplay(k) == KeyDisplay(k') ==> k == k'
  {
    if KeyDisplay(k) == KeyDisplay(k') {
      var x, y, z := IntToString(k.x), IntToString(k.y), IntToString(k.z);
      var x', y', z' := IntToString(k'.x), IntToString(k'.y), IntToString(k'.z);
      KeyDisplayGrouped(k);
      KeyDisplayGrouped(k');
      SplitCoordinate(x, AfterX(y, z), x', AfterX(y', z'));
      assert AfterY(y, z) == AfterX(y, z)[2..] && AfterY(y', z') == AfterX(y', z')[2..];
      SplitCoordinate(y, AfterZ(z), y', AfterZ(z'));
      assert z + "]" == AfterZ(z)[2..] && z' + "]" == AfterZ(z')[2..];
      assert z == (z + "]")[..|z|] && z' == (z' + "]")[..|z'|];
      IntToStringInjective(k.x, k'.x);
      IntToStringInjective(k.y, k'.y);
      IntToStringInjective(k.z, k'.z);
    }
  }

  /** Within one world's save directory, distinct chunks have distinct files. */
  lemma ChunkPathInjective(dataDir: string, worldName: string, k: IVec3, k': IVec3)
    ensures ChunkPath(dataDir, worldName, k) == ChunkPath(dataDir, worldName, k') ==> k == k'
  {
    var prefix := SavesDir(dataDir, worldName) + "/";
    var p, p' := ChunkPath(dataDir, worldName, k), ChunkPath(dataDir, worldName, k');
    if p == p' {
      assert p == prefix + KeyDisplay(k) + ".chunk";
      assert p' == prefix + KeyDisplay(k') + ".chunk";
      assert |KeyDisplay(k)| == |KeyDisplay(k')|;
      assert KeyDisplay(k) == p[|prefix|..|p| - 6];
      assert KeyDisplay(k') == p'[|prefix|..|p'| - 6];
      KeyDisplayInjective(k, k');
    }
  }

  /** The file of a chunk lies in the world's save directory. */
  lemma ChunkPathInSavesDir(dataDir: string, worldName: string, k: IVec3)
    ensures SavesDir(dataDir, worldName) + "/" <= ChunkPath(dataDir, worldName, k)
  {
  }
}
