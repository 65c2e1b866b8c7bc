/** `gale.project_cache`: a third copy of the cache-file reader, for a whole
    project's build directory. Its `CMakeCache` offers `native_executable`,
    `gdb` and `zephyr_base`. */
module ProjectCacheFile {
  import opened Common
  import opened Text
  import opened CMakeCacheText

  class CMakeCache {
    const path: string
    var values: map<string, Stored>

    /** Reads the file's lines into `values`. */
    constructor (path: string, lines: seq<string>)
      ensures this.path == path && values == ParseLines(lines)
    {
      this.path := path;
      values := map[];
      new;
      values := ParseCacheLines(lines);
    }

    /** `get`: `str` of the stored value, fatal for a missing key. */
    function Get(key: string): (r: Result<string>)
      reads this
      ensures r.Ok? <==> key in values
      ensures r.Ok? ==> r.value == Render(values[key])
      ensures !r.Ok? ==> r == Fatal("CMakeCache " + path + " does not define " + key)
    {
      Lookup(values, path, key)
    }

    function Gdb(): (r: Result<string>)
      reads this
      ensures r.Ok? <==> "CMAKE_GDB" in values
      ensures r.Ok? ==> r.value == Render(values["CMAKE_GDB"])
      ensures !r.Ok? ==> r == Fatal("CMakeCache " + path + " does not define CMAKE_GDB")
    {
      Get("CMAKE_GDB")
    }

    function ZephyrBase(): (r: Result<string>)
      reads this
      ensures r.Ok? <==> "ZEPHYR_BASE" in values
      ensures r.Ok? ==> r.value == Render(values["ZEPHYR_BASE"])
      ensures !r.Ok? ==> r == Fatal("CMakeCache " + path + " does not define ZEPHYR_BASE")
    {
      Get("ZEPHYR_BASE")
    }

    function NativeExecutable(): (r: Result<string>)
      reads this
      ensures r.Ok? <==> "BYPRODUCT_KERNEL_EXE_NAME" in values
      ensures r.Ok? ==> r.value == Render(values["BYPRODUCT_KERNEL_EXE_NAME"])
      ensures !r.Ok? ==> r == Fatal("CMakeCache " + path + " does not define BYPRODUCT_KERNEL_EXE_NAME")
    {
      Get("BYPRODUCT_KERNEL_EXE_NAME")
    }
  }

  class ProjectCache {
    const buildDir: string
    const cmakeCacheFile: string
    const cmakeCache: CMakeCache

    constructor (buildDir: string, cmakeCache: CMakeCache)
      ensures this.buildDir == buildDir && this.cmakeCache == cmakeCache
      ensures cmakeCacheFile == CacheFilePath(buildDir)
    {
      this.buildDir := buildDir;
      this.cmakeCacheFile := CacheFilePath(buildDir);
      this.cmakeCache := cmakeCache;
    }
  }

  /** `ProjectCache(build_dir)`: fatal when the build directory is missing,
      then when its `CMakeCache.txt` is missing; only then is the file parsed. */
  method OpenProjectCache(buildDir: string, fs: FileSystem) returns (r: Result<ProjectCache>)
    ensures !fs.Exists(buildDir) ==>
      r == Fatal("Build directory " + buildDir + " does not exist")
    ensures fs.Exists(buildDir) && !fs.Exists(CacheFilePath(buildDir)) ==>
      r == Fatal("CMakeCache " + CacheFilePath(buildDir) + " does not exist")
    ensures fs.Exists(buildDir) && CacheFilePath(buildDir) in fs.dirs - fs.files.Keys ==>
      r == Raised("IsADirectoryError")
    ensures r.Ok? <==> fs.Exists(buildDir) && CacheFilePath(buildDir) in fs.files
    ensures r.Ok? ==> fresh(r.value) && fresh(r.value.cmakeCache)
    ensures r.Ok? ==> r.value.buildDir == buildDir && r.value.cmakeCacheFile == CacheFilePath(buildDir)
    ensures r.Ok? ==> r.value.cmakeCache.path == CacheFilePath(buildDir)
    ensures r.Ok? ==> r.value.cmakeCache.values == ParseLines(SplitLines(TranslateNewlines(fs.files[CacheFilePath(buildDir)])))
  {
    var located := LocateCacheFile(fs, buildDir,
      "Build directory " + buildDir + " does not exist",
      "CMakeCache " + CacheFilePath(buildDir) + " does not exist");
    if !located.Ok? {
      return Fatal(located.message);
    }
    var lines := ReadLines(fs, located.value);
    if !lines.Ok? {
      return Raised(lines.exception);
    }
    var cache := new CMakeCache(located.value, lines.value);
    var built := new ProjectCache(buildDir, cache);
    r := Ok(built);
  }
}
