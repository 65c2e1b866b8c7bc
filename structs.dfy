/** The data classes of `gale.data.structs`: boards, projects, targets, the
    parsed `CMakeCache.txt` of a build and the build cache that owns it. */
module Structs {
  import opened Common
  import opened Text
  import opened CMakeCacheText

  /** A board. `primaryBoard` is the name passed to `west build -b`; the
      configuration reads it although the board class does not declare it,
      so it is an opaque field here. */
  datatype Board = Board(name: string, dir: string, primaryBoard: string)

  datatype Project = Project(name: string, dir: string, upstream: bool)

  /** A build target. Every target the tool defines sets `buildSubdir`. */
  datatype Target = Target(name: string, parentProject: Project, cmakeTarget: string, buildSubdir: string)

  /** `Board.is_bsim`: the board is a BabbleSim board exactly when its name
      contains `bsim`. */
  function IsBsim(board: Board): (r: bool)
    ensures r <==> IsInfix("bsim", board.name)
  {
    HasInfix(board.name, "bsim")
  }

  /** `<board>:<project>:<target>`, the name that identifies a build. */
  function Triplet(board: Board, target: Target): string {
    board.name + ":" + target.parentProject.name + ":" + target.name
  }

  /** Splitting a triplet at its colons gives back the board, project and
      target names, as long as none of them contains a colon. */
  lemma TripletSplits(board: Board, target: Target)
    requires ':' !in board.name && ':' !in target.parentProject.name && ':' !in target.name
    ensures SplitOn(Triplet(board, target), ':') == [board.name, target.parentProject.name, target.name]
  {
    var b, p, t := board.name, target.parentProject.name, target.name;
    assert Triplet(board, target) == b + [':'] + (p + [':'] + t);
    SplitOnAfterPiece(b, ':', p + [':'] + t);
    SplitOnAfterPiece(p, ':', t);
    SplitOnFree(t, ':');
  }

  /** The triplet identifies the build: two builds with colon-free names and the
      same triplet have the same board, project and target names. */
  lemma TripletIdentifiesBuild(b1: Board, t1: Target, b2: Board, t2: Target)
    requires ':' !in b1.name && ':' !in t1.parentProject.name && ':' !in t1.name
    requires ':' !in b2.name && ':' !in t2.parentProject.name && ':' !in t2.name
    requires Triplet(b1, t1) == Triplet(b2, t2)
    ensures b1.name == b2.name && t1.parentProject.name == t2.parentProject.name && t1.name == t2.name
  {
    TripletSplits(b1, t1);
    TripletSplits(b2, t2);
  }

  /** `CMakeCache` of `gale.data.structs`. */
  class CMakeCache {
    const path: string
    var values: map<string, Stored>

    /** Reads the file's lines into `values`. */
    constructor (path: string, lines: seq<string>)
      ensures this.path == path && values == ParseLines(lines)
    {
      this.path := path;
      values := map[];
      new;
      values := ParseCacheLines(lines);
    }

    /** `get`: `str` of the stored value, fatal for a missing key. */
    function Get(key: string): (r: Result<string>)
      reads this
      ensures r.Ok? <==> key in values
      ensures r.Ok? ==> r.value == Render(values[key])
      ensures !r.Ok? ==> r == Fatal("CMakeCache " + path + " does not define " + key)
    {
      Lookup(values, path, key)
    }

    function Gdb(): (r: Result<string>)
      reads this
      ensures r.Ok? <==> "CMAKE_GDB" in values
      ensures r.Ok? ==> r.value == Render(values["CMAKE_GDB"])
      ensures !r.Ok? ==> r == Fatal("CMakeCache " + path + " does not define CMAKE_GDB")
    {
      Get("CMAKE_GDB")
    }

    function ZephyrBase(): (r: Result<string>)
      reads this
      ensures r.Ok? <==> "ZEPHYR_BASE" in values
      ensures r.Ok? ==> r.value == Render(values["ZEPHYR_BASE"])
      ensures !r.Ok? ==> r == Fatal("CMakeCache " + path + " does not define ZEPHYR_BASE")
    {
      Get("ZEPHYR_BASE")
    }

    function ExePath(): (r: Result<string>)
      reads this
      ensures r.Ok? <==> "BYPRODUCT_KERNEL_EXE_NAME" in values
      ensures r.Ok? ==> r.value == Render(values["BYPRODUCT_KERNEL_EXE_NAME"])
      ensures !r.Ok? ==> r == Fatal("CMakeCache " + path + " does not define BYPRODUCT_KERNEL_EXE_NAME")
    {
      Get("BYPRODUCT_KERNEL_EXE_NAME")
    }

    function ElfPath(): (r: Result<string>)
      reads this
      ensures r.Ok? <==> "BYPRODUCT_KERNEL_ELF_NAME" in values
      ensures r.Ok? ==> r.value == Render(values["BYPRODUCT_KERNEL_ELF_NAME"])
      ensures !r.Ok? ==> r == Fatal("CMakeCache " + path + " does not define BYPRODUCT_KERNEL_ELF_NAME")
    {
      Get("BYPRODUCT_KERNEL_ELF_NAME")
    }

    function BsimOutPath(): (r: Result<string>)
      reads this
      ensures r.Ok? <==> "BSIM_OUT_PATH" in values
      ensures r.Ok? ==> r.value == Render(values["BSIM_OUT_PATH"])
      ensures !r.Ok? ==> r == Fatal("CMakeCache " + path + " does not define BSIM_OUT_PATH")
    {
      Get("BSIM_OUT_PATH")
    }
  }

  /** `BuildCache` of `gale.data.structs`: the build's identity and its parsed
      cache file. */
  class BuildCache {
    const board: Board
    const target: Target
    const triplet: string
    const buildDir: string
    const cmakeCache: CMakeCache

    constructor (board: Board, target: Target, buildDir: string, cmakeCache: CMakeCache)
      ensures this.board == board && this.target == target && this.buildDir == buildDir
      ensures triplet == Triplet(board, target) && this.cmakeCache == cmakeCache
    {
      this.board := board;
      this.target := target;
      this.triplet := Triplet(board, target);
      this.buildDir := buildDir;
      this.cmakeCache := cmakeCache;
    }
  }

  /** `BuildCache(board, target, build_dir)`: fatal when the build directory is
      missing, then when its `CMakeCache.txt` is missing; only then is the file
      parsed. */
  method OpenBuildCache(board: Board, target: Target, buildDir: string, fs: FileSystem)
    returns (r: Result<BuildCache>)
    ensures !fs.Exists(buildDir) ==>
      r == Fatal("Build directory for the target '" + Triplet(board, target) + "' does not exist")
    ensures fs.Exists(buildDir) && !fs.Exists(CacheFilePath(buildDir)) ==>
      r == Fatal("CMakeCache for the target '" + Triplet(board, target) + "' does not exist")
    ensures fs.Exists(buildDir) && CacheFilePath(buildDir) in fs.dirs - fs.files.Keys ==>
      r == Raised("IsADirectoryError")
    ensures r.Ok? <==> fs.Exists(buildDir) && CacheFilePath(buildDir) in fs.files
    ensures r.Ok? ==> fresh(r.value) && fresh(r.value.cmakeCache)
    ensures r.Ok? ==> r.value.board == board && r.value.target == target && r.value.buildDir == buildDir
    ensures r.Ok? ==> r.value.triplet == Triplet(board, target)
    ensures r.Ok? ==> r.value.cmakeCache.path == CacheFilePath(buildDir)
    ensures r.Ok? ==> r.value.cmakeCache.values == ParseLines(SplitLines(TranslateNewlines(fs.files[CacheFilePath(buildDir)])))
  {
    var triplet := Triplet(board, target);
    var located := LocateCacheFile(fs, buildDir,
      "Build directory for the target '" + triplet + "' does not exist",
      "CMakeCache for the target '" + triplet + "' does not exist");
    if !located.Ok? {
      return Fatal(located.message);
    }
    var lines := ReadLines(fs, located.value);
    if !lines.Ok? {
      return Raised(lines.exception);
    }
    var cache := new CMakeCache(located.value, lines.value);
    var built := new BuildCache(board, target, buildDir, cache);
    r := Ok(built);
  }
}
