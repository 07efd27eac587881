/** The custom-map swap: the game only loads maps from its installed files, so
    a custom map is copied over a fixed map slot for the duration of a match
    start and the original is restored afterwards. Paths are strings with one
    separator; the filesystem is a map from path to file contents. */
module CustomMap {
  import opened Wrappers
  import opened Strings

  // ---------------------------------------------------------------------------
  // Paths
  // ---------------------------------------------------------------------------

  const Sep: char := '/'

  predicate NoSep(s: string)
  {
    forall i :: 0 <= i < |s| ==> s[i] != Sep
  }

  /** Index of the last separator of `p`, if any. */
  function LastSep(p: string): (r: Option<nat>)
    ensures r.Some? ==> r.value < |p| && p[r.value] == Sep
  {
    if p == [] then None
    else if p[|p| - 1] == Sep then Some(|p| - 1)
    else LastSep(p[..|p| - 1])
  }

  /** There is no last separator exactly when there is no separator. */
  lemma {:induction false} LastSepNone(p: string)
    ensures LastSep(p).None? <==> NoSep(p)
  {
    if p != [] && p[|p| - 1] != Sep {
      var q := p[..|p| - 1];
      LastSepNone(q);
      assert forall i :: 0 <= i < |q| ==> q[i] == p[i];
    }
  }

  /** No separator follows the last one. */
  lemma {:induction false} LastSepSome(p: string)
    requires LastSep(p).Some?
    ensures NoSep(p[LastSep(p).value + 1..])
  {
    if p[|p| - 1] != Sep {
      var q := p[..|p| - 1];
      var k := LastSep(p).value;
      LastSepSome(q);
      assert p[k + 1..] == q[k + 1..] + [p[|p| - 1]];
    }
  }

  /** A join starts with the directory and ends with the name. */
  lemma JoinExtends(d: string, n: string)
    ensures d <= Join(d, n) && EndsWith(Join(d, n), n)
  {
  }

  /** A separator followed by none is the last one. */
  lemma {:induction false} LastSepIsLast(p: string, k: nat)
    requires k < |p| && p[k] == Sep && NoSep(p[k + 1..])
    ensures LastSep(p) == Some(k)
  {
    if k < |p| - 1 {
      var q := p[..|p| - 1];
      assert p[|p| - 1] == p[k + 1..][|p| - 2 - k];
      assert q[k + 1..] == p[k + 1..][..|p| - 2 - k];
      LastSepIsLast(q, k);
    }
  }

  /** `path.dirname`: everything before the last separator (the root keeps
      its separator); the empty string when there is none. */
  function Dirname(p: string): string
  {
    match LastSep(p)
    case None => ""
    case Some(k) => if k == 0 then [Sep] else p[..k]
  }

  /** `path.basename`: everything after the last separator. */
  function Basename(p: string): (r: string)
    ensures NoSep(r)
  {
    LastSepNone(p);
    match LastSep(p)
    case None => p
    case Some(k) => LastSepSome(p); p[k + 1..]
  }

  /** `path.join(d, n)` for a relative `n`. */
  function Join(d: string, n: string): (r: string)
    ensures NoSep(n) ==> Basename(r) == n
    ensures NoSep(n) && (d == "" || d == [Sep] || d[|d| - 1] != Sep) ==> Dirname(r) == d
  {
    var r := if d == "" then n else if d[|d| - 1] == Sep then d + n else d + [Sep] + n;
    assert NoSep(n) ==> LastSep(r) == (if d == "" then None else Some(|r| - |n| - 1)) by {
      if NoSep(n) {
        if d == "" {
          LastSepNone(r);
        } else {
          assert r[|r| - |n| - 1] == Sep;
          assert r[|r| - |n|..] == n;
          LastSepIsLast(r, |r| - |n| - 1);
        }
      }
    }
    r
  }

  // ---------------------------------------------------------------------------
  // Names
  // ---------------------------------------------------------------------------

  /** The installed map file the custom map is copied over, and the map name
      the game knows it by. */
  const SlotFileName: string := "Labs_Utopia_P.upk"
  const SwappedMapName: string := "UtopiaRetro"

  /** The companion configuration of a custom map `dir/name.ext` is
      `dir/_name.cfg`: its basename with the last four characters dropped. */
  function CompanionConfigPath(customMapFile: string): (r: string)
    ensures Basename(r) == "_" + DropLast(Basename(customMapFile), 4) + ".cfg"
    ensures var d := Dirname(customMapFile);
            d == "" || d == [Sep] || d[|d| - 1] != Sep ==> Dirname(r) == d
  {
    var expectedConfigName := "_" + DropLast(Basename(customMapFile), 4) + ".cfg";
    assert NoSep(expectedConfigName) by {
      var b := Basename(customMapFile);
      assert forall i :: 0 <= i < |DropLast(b, 4)| ==> DropLast(b, 4)[i] == b[i];
    }
    Join(Dirname(customMapFile), expectedConfigName)
  }

  function SlotPath(rlDirectory: string): string
  {
    Join(rlDirectory, SlotFileName)
  }

  /** The backup sits beside the slot, suffixed with the entry timestamp. */
  function BackupPath(rlDirectory: string, timestamp: string): (r: string)
    ensures r != SlotPath(rlDirectory)
    ensures SlotPath(rlDirectory) < r
  {
    SlotPath(rlDirectory) + "." + timestamp
  }

  // ---------------------------------------------------------------------------
  // The filesystem
  // ---------------------------------------------------------------------------

  type Bytes = seq<bv8>
  type Files = map<string, Bytes>

  /** `shutil.copy2`: fails when the source is missing or is the destination. */
  function CopyFile(files: Files, src: string, dst: string): (r: Option<Files>)
    ensures r.Some? <==> src in files && src != dst
    ensures r.Some? ==> r.value.Keys == files.Keys + {dst} && r.value[dst] == files[src]
    ensures r.Some? ==> forall p :: p in files && p != dst ==> r.value[p] == files[p]
  {
    if src !in files || src == dst then None else Some(files[dst := files[src]])
  }

  /** `os.replace`: moves `src` over `dst`; fails when `src` is missing. */
  function ReplaceFile(files: Files, src: string, dst: string): (r: Option<Files>)
    ensures r.Some? <==> src in files
    ensures r.Some? ==> r.value.Keys == files.Keys - {src} + {dst} && r.value[dst] == files[src]
    ensures r.Some? ==> forall p :: p in files && p != src && p != dst ==> r.value[p] == files[p]
  {
    if src !in files then None else Some((files - {src})[dst := files[src]])
  }

  class FileSystem {
    var files: Files

    constructor (files: Files)
      ensures this.files == files
    {
      this.files := files;
    }

    method Copy(src: string, dst: string) returns (ok: bool)
      modifies this
      ensures ok == CopyFile(old(files), src, dst).Some?
      ensures files == if ok then CopyFile(old(files), src, dst).value else old(files)
    {
      ok := src in files && src != dst;
      if ok {
        files := files[dst := files[src]];
      }
    }

    method Replace(src: string, dst: string) returns (ok: bool)
      modifies this
      ensures ok == ReplaceFile(old(files), src, dst).Some?
      ensures files == if ok then ReplaceFile(old(files), src, dst).value else old(files)
    {
      ok := src in files;
      if ok {
        files := (files - {src})[dst := files[src]];
      }
    }
  }

  // ---------------------------------------------------------------------------
  // prepare_custom_map
  // ---------------------------------------------------------------------------

  /** The additional information yielded with the map name. */
  datatype MapMetadata = MapMetadata(originalPath: string, configPath: Option<string>)

  /** What entering the scope yields, with the two paths its exit needs. */
  datatype Swap = Swap(gameMap: string, metadata: MapMetadata, slot: string, backup: string)

  function Metadata(files: Files, customMapFile: string): (m: MapMetadata)
    ensures m.originalPath == customMapFile
    ensures m.configPath.Some? <==> CompanionConfigPath(customMapFile) in files
    ensures m.configPath.Some? ==> m.configPath.value == CompanionConfigPath(customMapFile)
  {
    var configPath := CompanionConfigPath(customMapFile);
    MapMetadata(customMapFile, if configPath in files then Some(configPath) else None)
  }

  /** The files inside the scope: the backup holds the slot's prior contents
      and the slot holds the custom map's. */
  function SwappedIn(files: Files, customMapFile: string, slot: string, backup: string): Option<Files>
  {
    match CopyFile(files, slot, backup)
    case None => None
    case Some(withBackup) => CopyFile(withBackup, customMapFile, slot)
  }

  /** Inside the scope the backup holds what the slot held and the slot holds
      what the custom file held; nothing else changes. */
  lemma SwappedInContents(files: Files, customMapFile: string, slot: string, backup: string)
    requires slot != backup
    requires SwappedIn(files, customMapFile, slot, backup).Some?
    ensures var inside := SwappedIn(files, customMapFile, slot, backup).value;
            && inside.Keys == files.Keys + {backup}
            && inside[backup] == files[slot]
            && inside[slot] == (if customMapFile == backup then files[slot] else files[customMapFile])
            && forall p :: p in files && p != slot && p != backup ==> inside[p] == files[p]
  {
  }

  /** The swap succeeds exactly when the slot exists and the custom file
      exists (or is the backup just made) and is not the slot itself. */
  lemma SwappedInSucceeds(files: Files, customMapFile: string, slot: string, backup: string)
    requires slot != backup
    ensures SwappedIn(files, customMapFile, slot, backup).Some? <==>
              slot in files && (customMapFile in files || customMapFile == backup) && customMapFile != slot
  {
  }

  /** The exit of the scope undoes the swap: renaming the backup over the slot
      gives back the files as they were, without the backup path. */
  lemma {:induction false} ExitRestores(files: Files, customMapFile: string, slot: string, backup: string)
    requires slot != backup
    requires SwappedIn(files, customMapFile, slot, backup).Some?
    ensures ReplaceFile(SwappedIn(files, customMapFile, slot, backup).value, backup, slot) == Some(files - {backup})
    ensures backup !in files ==> ReplaceFile(SwappedIn(files, customMapFile, slot, backup).value, backup, slot) == Some(files)
  {
    var inside := SwappedIn(files, customMapFile, slot, backup).value;
    SwappedInContents(files, customMapFile, slot, backup);
    var after := ReplaceFile(inside, backup, slot).value;
    assert after.Keys == (files - {backup}).Keys;
    assert forall p :: p in after ==> after[p] == (files - {backup})[p];
    assert after == files - {backup};
    if backup !in files {
      assert files - {backup} == files;
    }
  }

  /** When the second copy fails (the custom file is missing, or is the slot
      itself), the scope is never entered and nothing restores: the slot is
      untouched but the backup copy stays behind. */
  lemma FailedSwapLeavesBackup(files: Files, customMapFile: string, slot: string, backup: string)
    requires slot != backup && slot in files
    requires (customMapFile !in files && customMapFile != backup) || customMapFile == slot
    ensures SwappedIn(files, customMapFile, slot, backup).None?
    ensures CopyFile(files, slot, backup) == Some(files[backup := files[slot]])
  {
  }

  /** Entering `prepare_custom_map`: the two copies, in order. On success the
      game map to use is always the slot's name; a failing copy raises before
      the scope is entered. */
  method EnterCustomMap(fs: FileSystem, customMapFile: string, rlDirectory: string, timestamp: string)
    returns (swap: Option<Swap>)
    modifies fs
    ensures var slot := SlotPath(rlDirectory);
            var backup := BackupPath(rlDirectory, timestamp);
            && (swap.Some? <==> SwappedIn(old(fs.files), customMapFile, slot, backup).Some?)
            && (swap.Some? ==>
                  && swap.value == Swap(SwappedMapName, Metadata(old(fs.files), customMapFile), slot, backup)
                  && fs.files == SwappedIn(old(fs.files), customMapFile, slot, backup).value)
            && (swap.None? ==>
                  fs.files == match CopyFile(old(fs.files), slot, backup)
                              case None => old(fs.files)
                              case Some(withBackup) => withBackup)
  {
    var metadata := Metadata(fs.files, customMapFile);
    var realMapFile := SlotPath(rlDirectory);
    var tempFilename := BackupPath(rlDirectory, timestamp);

    var backedUp := fs.Copy(realMapFile, tempFilename);
    if !backedUp {
      return None;
    }
    var copiedIn := fs.Copy(customMapFile, realMapFile);
    if !copiedIn {
      return None;
    }
    swap := Some(Swap(SwappedMapName, metadata, realMapFile, tempFilename));
  }

  /** Leaving `prepare_custom_map`, on every exit path: the backup is renamed
      over the slot. */
  method ExitCustomMap(fs: FileSystem, swap: Swap)
    requires swap.backup in fs.files
    modifies fs
    ensures fs.files == ReplaceFile(old(fs.files), swap.backup, swap.slot).value
  {
    var _ := fs.Replace(swap.backup, swap.slot);
  }

  // ---------------------------------------------------------------------------
  // identify_map_directory
  // ---------------------------------------------------------------------------

  /** The launcher preference passed down from a command. */
  datatype LauncherPreference = LauncherPreference(preferredLauncher: string, useLoginTricks: bool, exePath: Option<string>)

  const SteamLauncher: string := "steam"
  /** The Windows separator inside the raw-string suffixes: plain text to
      this model's paths. */
  const WindowsSep: char := '\\'
  /** `r"TAGame\CookedPCConsole"` */
  const EpicSuffix: string := "TAGame" + [WindowsSep] + "CookedPCConsole"
  /** `r"steamapps\common\rocketleague\TAGame\CookedPCConsole"` */
  const SteamSuffix: string := "steamapps" + [WindowsSep] + "common" + [WindowsSep] + "rocketleague" + [WindowsSep] + EpicSuffix

  /** Whether `s` has no separator from index `k` on, checked one character
      at a time, so that Dafny can evaluate it on a short literal. */
  predicate NoSepFrom(s: string, k: nat)
    decreases |s| - k
  {
    k >= |s| || (s[k] != Sep && NoSepFrom(s, k + 1))
  }

  lemma {:induction false} NoSepFromAll(s: string, k: nat)
    requires NoSepFrom(s, k)
    ensures forall i :: k <= i < |s| ==> s[i] != Sep
    decreases |s| - k
  {
    if k < |s| {
      NoSepFromAll(s, k + 1);
    }
  }

  lemma NoSepConcat(x: string, y: string)
    requires NoSep(x) && NoSep(y)
    ensures NoSep(x + y)
  {
    assert forall i :: |x| <= i < |x + y| ==> (x + y)[i] == y[i - |x|];
  }

  /** Both suffixes are single path components to this model. */
  lemma SuffixesHaveNoSep()
    ensures NoSep(SteamSuffix) && NoSep(EpicSuffix)
  {
    var sep: string := [WindowsSep];
    var words := [sep, "TAGame", "CookedPCConsole", "steamapps", "common", "rocketleague"];
    forall w | w in words
      ensures NoSep(w)
    {
      assert NoSepFrom(w, 0);
      NoSepFromAll(w, 0);
    }
    NoSepConcat("TAGame", sep);
    NoSepConcat("TAGame" + sep, "CookedPCConsole");
    NoSepConcat("steamapps", sep);
    NoSepConcat("steamapps" + sep, "common");
    NoSepConcat("steamapps" + sep + "common", sep);
    NoSepConcat("steamapps" + sep + "common" + sep, "rocketleague");
    NoSepConcat("steamapps" + sep + "common" + sep + "rocketleague", sep);
    NoSepConcat("steamapps" + sep + "common" + sep + "rocketleague" + sep, EpicSuffix);
  }

  /** The maps directory derived from a launcher executable: beside the Steam
      executable, or two levels up from the Epic Games binary. */
  function MapDirectoryFrom(steam: bool, executable: string): (r: string)
    ensures steam ==> Dirname(executable) <= r && EndsWith(r, SteamSuffix)
    ensures !steam ==> Join(Join(Dirname(executable), ".."), "..") <= r && EndsWith(r, EpicSuffix)
  {
    JoinExtends(Dirname(executable), SteamSuffix);
    JoinExtends(Join(Join(Dirname(executable), ".."), ".."), EpicSuffix);
    if steam then Join(Dirname(executable), SteamSuffix)
    else Join(Join(Join(Dirname(executable), ".."), ".."), EpicSuffix)
  }

  /** The derived directory ends in the launcher's suffix as a whole last
      component: nothing sits between the joined directory and the suffix. */
  lemma MapDirectoryBasename(steam: bool, executable: string)
    ensures Basename(MapDirectoryFrom(steam, executable)) == if steam then SteamSuffix else EpicSuffix
  {
    SuffixesHaveNoSep();
  }

  /** `identify_map_directory`; the executable that the launcher-specific
      helper locates (absent when it finds none) and the set of existing
      paths are parameters. */
  function IdentifyMapDirectory(launcher: LauncherPreference, executable: Option<string>, existing: set<string>): (r: Option<string>)
    ensures r.Some? ==> r.value in existing
    ensures r.None? <==>
              || executable.None? || executable.value == ""
              || MapDirectoryFrom(launcher.preferredLauncher == SteamLauncher, executable.value) !in existing
    ensures r.Some? ==> r.value == MapDirectoryFrom(launcher.preferredLauncher == SteamLauncher, executable.value)
  {
    match executable
    case None => None
    case Some(exe) =>
      if exe == "" then None
      else
        var finalPath := MapDirectoryFrom(launcher.preferredLauncher == SteamLauncher, exe);
        if finalPath !in existing then None else Some(finalPath)
  }
}
