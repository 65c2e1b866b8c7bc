/** `gale.build_cache`: a second copy of the cache-file reader. Its
    `CMakeCache` has no `bsim_out_path`, and its `BuildCache` is given the
    triplet as text and keeps it as it is. */
module BuildCacheFile {
  import opened Common
  import opened Text
  import opened CMakeCacheText

  class CMakeCache {
    const path: string
    var values: map<string, Stored>

    /** Reads the file's lines into `values`. */
    constructor (path: string, lines: seq<string>)
      ensures this.path == path && values == ParseLines(lines)
    {
      this.path := path;
      values := map[];
      new;
      values := ParseCacheLines(lines);
    }

    /** `get`: `str` of the stored value, fatal for a missing key. */
    function Get(key: string): (r: Result<string>)
      reads this
      ensures r.Ok? <==> key in values
      ensures r.Ok? ==> r.value == Render(values[key])
      ensures !r.Ok? ==> r == Fatal("CMakeCache " + path + " does not define " + key)
    {
      Lookup(values, path, key)
    }

    function Gdb(): (r: Result<string>)
      reads this
      ensures r.Ok? <==> "CMAKE_GDB" in values
      ensures r.Ok? ==> r.value == Render(values["CMAKE_GDB"])
      ensures !r.Ok? ==> r == Fatal("CMakeCache " + path + " does not define CMAKE_GDB")
    {
      Get("CMAKE_GDB")
    }

    function ZephyrBase(): (r: Result<string>)
      reads this
      ensures r.Ok? <==> "ZEPHYR_BASE" in values
      ensures r.Ok? ==> r.value == Render(values["ZEPHYR_BASE"])
      ensures !r.Ok? ==> r == Fatal("CMakeCache " + path + " does not define ZEPHYR_BASE")
    {
      Get("ZEPHYR_BASE")
    }

    function ExePath(): (r: Result<string>)
      reads this
      ensures r.Ok? <==> "BYPRODUCT_KERNEL_EXE_NAME" in values
      ensures r.Ok? ==> r.value == Render(values["BYPRODUCT_KERNEL_EXE_NAME"])
      ensures !r.Ok? ==> r == Fatal("CMakeCache " + path + " does not define BYPRODUCT_KERNEL_EXE_NAME")
    {
      Get("BYPRODUCT_KERNEL_EXE_NAME")
    }

    function ElfPath(): (r: Result<string>)
      reads this
      ensures r.Ok? <==> "BYPRODUCT_KERNEL_ELF_NAME" in values
      ensures r.Ok? ==> r.value == Render(values["BYPRODUCT_KERNEL_ELF_NAME"])
      ensures !r.Ok? ==> r == Fatal("CMakeCache " + path + " does not define BYPRODUCT_KERNEL_ELF_NAME")
    {
      Get("BYPRODUCT_KERNEL_ELF_NAME")
    }
  }

  class BuildCache {
    const triplet: string
    const buildDir: string
    const cmakeCache: CMakeCache

    constructor (triplet: string, buildDir: string, cmakeCache: CMakeCache)
      ensures this.triplet == triplet && this.buildDir == buildDir && this.cmakeCache == cmakeCache
    {
      this.triplet := triplet;
      this.buildDir := buildDir;
      this.cmakeCache := cmakeCache;
    }
  }

  /** `BuildCache(triplet, build_dir)`: fatal when the build directory is
      missing, then when its `CMakeCache.txt` is missing; only then is the file
      parsed. The triplet is stored verbatim. */
  method OpenBuildCache(triplet: string, buildDir: string, fs: FileSystem) returns (r: Result<BuildCache>)
    ensures !fs.Exists(buildDir) ==>
      r == Fatal("Build directory for the target '" + triplet + "' does not exist")
    ensures fs.Exists(buildDir) && !fs.Exists(CacheFilePath(buildDir)) ==>
      r == Fatal("CMakeCache for the target '" + triplet + "' does not exist")
    ensures fs.Exists(buildDir) && CacheFilePath(buildDir) in fs.dirs - fs.files.Keys ==>
      r == Raised("IsADirectoryError")
    ensures r.Ok? <==> fs.Exists(buildDir) && CacheFilePath(buildDir) in fs.files
    ensures r.Ok? ==> fresh(r.value) && fresh(r.value.cmakeCache)
    ensures r.Ok? ==> r.value.triplet == triplet && r.value.buildDir == buildDir
    ensures r.Ok? ==> r.value.cmakeCache.path == CacheFilePath(buildDir)
    ensures r.Ok? ==> r.value.cmakeCache.values == ParseLines(SplitLines(TranslateNewlines(fs.files[CacheFilePath(buildDir)])))
  {
    var located := LocateCacheFile(fs, buildDir,
      "Build directory for the target '" + triplet + "' does not exist",
      "CMakeCache for the target '" + triplet + "' does not exist");
    if !located.Ok? {
      return Fatal(located.message);
    }
    var lines := ReadLines(fs, located.value);
    if !lines.Ok? {
      return Raised(lines.exception);
    }
    var cache := new CMakeCache(located.value, lines.value);
    var built := new BuildCache(triplet, buildDir, cache);
    r := Ok(built);
  }
}
