/** `PathConfig`: where an account's files live. A `java.io.File` is
    modelled by its path components; `new File(parent, name)` appends one. */
module PathConfig {

  type Path = seq<string>

  /** `new File(parent, name)`. */
  function Child(parent: Path, name: string): (p: Path)
    ensures |p| == |parent| + 1 && p[..|parent|] == parent && p[|parent|] == name
  {
    parent + [name]
  }

  /** `getParentFile()` of a path with at least one component. */
  function Parent(p: Path): Path
    requires |p| >= 1
  {
    p[..|p| - 1]
  }

  /** `getName()`. */
  function Name(p: Path): string
    requires |p| >= 1
  {
    p[|p| - 1]
  }

  datatype PathConfig = PathConfig(dataPath: Path, attachmentsPath: Path, avatarsPath: Path, stickerPacksPath: Path)

  /** `createDefault(settingsPath)`: the four directories, each directly
      under the settings path. */
  function CreateDefault(settingsPath: Path): (c: PathConfig)
    ensures |c.dataPath| >= 1 && Parent(c.dataPath) == settingsPath && Name(c.dataPath) == "data"
    ensures |c.attachmentsPath| >= 1 && Parent(c.attachmentsPath) == settingsPath && Name(c.attachmentsPath) == "attachments"
    ensures |c.avatarsPath| >= 1 && Parent(c.avatarsPath) == settingsPath && Name(c.avatarsPath) == "avatars"
    ensures |c.stickerPacksPath| >= 1 && Parent(c.stickerPacksPath) == settingsPath && Name(c.stickerPacksPath) == "stickers"
  {
    PathConfig(Child(settingsPath, "data"), Child(settingsPath, "attachments"),
               Child(settingsPath, "avatars"), Child(settingsPath, "stickers"))
  }

  /** The default directories are four different paths, none inside
      another. */
  lemma DefaultPathsDistinct(settingsPath: Path)
    ensures var c := CreateDefault(settingsPath);
      var paths := [c.dataPath, c.attachmentsPath, c.avatarsPath, c.stickerPacksPath];
      forall i, j | 0 <= i < j < 4 :: paths[i] != paths[j] && |paths[i]| == |paths[j]|
  {
    var c := CreateDefault(settingsPath);
    var paths := [c.dataPath, c.attachmentsPath, c.avatarsPath, c.stickerPacksPath];
    forall i, j | 0 <= i < j < 4
      ensures paths[i] != paths[j] && |paths[i]| == |paths[j]|
    {
      assert Name(paths[i]) != Name(paths[j]);
    }
  }

  /** Different settings paths give different data paths. */
  lemma DefaultDeterminedBySettings(s: Path, t: Path)
    requires CreateDefault(s).dataPath == CreateDefault(t).dataPath
    ensures s == t
  {
    assert s == Parent(CreateDefault(s).dataPath);
  }
}
