/** `gale.configuration`: one build of a target for a board. It derives the
    build directories, composes the arguments handed to CMake, caches them in
    `build_args.txt` for later rebuilds, and assembles the `west build`
    command. */
module BuildConfiguration {
  import opened Common
  import opened Text
  import opened Structs
  import opened CMakeCacheText
  import Util

  /** The build types: a static-analysis build and a plain one. */
  datatype BuildType = Sca | Standard

  /** What a build does to the outside world, in order. */
  datatype BuildEvent = PreBuild(dir: string) | RunBuild(cmd: string) | WriteArgs(path: string, content: string)

  /** The argument forms of Python's positional binding used by
      `get_build_cache`. */
  datatype Arg = BoardArg(board: Board) | TargetArg(target: Target) | TypeArg(buildType: BuildType) | PathArg(path: string)

  /** Python binds positional arguments only when the call supplies exactly as
      many as the callee declares; otherwise it raises `TypeError` before the
      callee's body runs. */
  function BindPositional(declared: nat, supplied: seq<Arg>): (r: Result<seq<Arg>>)
    ensures r.Ok? <==> |supplied| == declared
    ensures r.Ok? ==> r.value == supplied
    ensures !r.Ok? ==> r == Raised("TypeError")
  {
    if |supplied| == declared then Ok(supplied) else Raised("TypeError")
  }

  /** `BuildCache(board, target, build_dir)` declares three parameters. */
  const BuildCacheParameters: nat := 3

  /** `<project dir>/build/<triplet>`. */
  function RootBuildDir(board: Board, target: Target): string {
    Join(Join(target.parentProject.dir, "build"), Triplet(board, target))
  }

  /** `<root build dir>/<build subdir>`. */
  function TargetBuildDir(board: Board, target: Target): string {
    Join(RootBuildDir(board, target), target.buildSubdir)
  }

  /** `<target build dir>/build_args.txt`. */
  function BuildArgsFile(board: Board, target: Target): string {
    Join(TargetBuildDir(board, target), "build_args.txt")
  }

  /** The cached arguments live at
      `<project dir>/build/<board>:<project>:<target>/<build subdir>/build_args.txt`. */
  lemma BuildArgsFileLocation(board: Board, target: Target)
    ensures BuildArgsFile(board, target) ==
      target.parentProject.dir + "/build/" + board.name + ":" + target.parentProject.name + ":" + target.name
      + "/" + target.buildSubdir + "/build_args.txt"
  {
    var d, bn, pn, tn := target.parentProject.dir, board.name, target.parentProject.name, target.name;
    var root := d + "/build/";
    AppendAssoc(d + "/", "build", "/");
    AppendAssoc(d, "/", "build/");
    assert Join(d, "build") + "/" == root;
    AppendAssoc(root, bn + ":" + pn + ":", tn);
    AppendAssoc(root, bn + ":" + pn, ":");
    AppendAssoc(root, bn + ":", pn);
    AppendAssoc(root, bn, ":");
    assert RootBuildDir(board, target) == root + bn + ":" + pn + ":" + tn;
    AppendAssoc(TargetBuildDir(board, target), "/", "build_args.txt");
  }

  /** Two builds of one project share a root build directory only when they
      share a triplet. */
  lemma {:induction false} RootBuildDirIdentifiesTriplet(b1: Board, t1: Target, b2: Board, t2: Target)
    requires t1.parentProject.dir == t2.parentProject.dir
    requires RootBuildDir(b1, t1) == RootBuildDir(b2, t2)
    ensures Triplet(b1, t1) == Triplet(b2, t2)
  {
    var base := Join(t1.parentProject.dir, "build");
    assert RootBuildDir(b1, t1)[|base| + 1..] == Triplet(b1, t1);
    assert RootBuildDir(b2, t2)[|base| + 1..] == Triplet(b2, t2);
  }

  /** The argument list of a build: the caller's arguments, then those of the
      build type, then the cached ones when they are loaded. */
  function ComposeArgs(extra: Option<seq<string>>, typeArgs: seq<string>, cached: Option<seq<string>>): seq<string> {
    var given := if extra.None? then [] else extra.value;
    var withType := given + typeArgs;
    if cached.Some? then withType + cached.value else withType
  }

  /** The three parts appear in that order, each unchanged. */
  lemma ComposeArgsOrder(extra: seq<string>, typeArgs: seq<string>, cached: Option<seq<string>>)
    ensures var r := ComposeArgs(Some(extra), typeArgs, cached);
      && r[..|extra|] == extra
      && r[|extra|..|extra| + |typeArgs|] == typeArgs
      && (cached.Some? ==> r[|extra| + |typeArgs|..] == cached.value)
      && (cached.None? ==> |r| == |extra| + |typeArgs|)
    ensures ComposeArgs(None, typeArgs, cached) == ComposeArgs(Some([]), typeArgs, cached)
  {
  }

  /** `Configuration`: its fields never change after construction. */
  class Configuration {
    const board: Board
    const target: Target
    const buildType: BuildType
    const triplet: string
    const rootBuildDir: string
    const targetBuildDir: string
    const buildArgsFile: string

    constructor (board: Board, target: Target, buildType: BuildType)
      ensures this.board == board && this.target == target && this.buildType == buildType
      ensures triplet == Triplet(board, target)
      ensures rootBuildDir == RootBuildDir(board, target)
      ensures targetBuildDir == TargetBuildDir(board, target)
      ensures buildArgsFile == BuildArgsFile(board, target)
    {
      this.board := board;
      this.target := target;
      this.buildType := buildType;
      triplet := Triplet(board, target);
      rootBuildDir := Join(Join(target.parentProject.dir, "build"), Triplet(board, target));
      targetBuildDir := Join(Join(Join(target.parentProject.dir, "build"), Triplet(board, target)), target.buildSubdir);
      buildArgsFile := Join(Join(Join(Join(target.parentProject.dir, "build"), Triplet(board, target)), target.buildSubdir), "build_args.txt");
    }

    /** The directories and file of a configuration are the ones its board and
        target determine. */
    ghost predicate Valid() {
      && triplet == Triplet(board, target)
      && rootBuildDir == RootBuildDir(board, target)
      && targetBuildDir == TargetBuildDir(board, target)
      && buildArgsFile == BuildArgsFile(board, target)
    }

    /** `_save_build_args`: opening the file for writing fails when its
        directory is missing (`NotADirectoryError` when a regular file stands
        in the directory's place) or when the path is a directory; otherwise
        the file holds the arguments joined by single spaces, and nothing else
        in the file system changes. */
    function SaveBuildArgs(fs: FileSystem, args: seq<string>): (r: Result<FileSystem>)
      ensures r.Ok? <==> targetBuildDir in fs.dirs && buildArgsFile !in fs.dirs
      ensures targetBuildDir !in fs.dirs && targetBuildDir in fs.files ==> r == Raised("NotADirectoryError")
      ensures !fs.Exists(targetBuildDir) ==> r == Raised("FileNotFoundError")
      ensures targetBuildDir in fs.dirs && buildArgsFile in fs.dirs ==> r == Raised("IsADirectoryError")
      ensures r.Ok? ==> r.value.dirs == fs.dirs && r.value.files == fs.files[buildArgsFile := JoinSpace(args)]
    {
      if targetBuildDir !in fs.dirs then
        Raised(if targetBuildDir in fs.files then "NotADirectoryError" else "FileNotFoundError")
      else if buildArgsFile in fs.dirs then Raised("IsADirectoryError")
      else Ok(FileSystem(fs.dirs, fs.files[buildArgsFile := if args != [] then JoinSpace(args) else ""]))
    }

    /** `_load_cached_build_args`: the whitespace-separated words of the file;
        a missing file gives no arguments, while a directory in its place, or a
        regular file in place of its directory, raises, since only
        `FileNotFoundError` is caught. The file's text is split as stored:
        newline translation would only turn carriage returns, which are
        whitespace, into line feeds, which are whitespace too. */
    function LoadCachedBuildArgs(fs: FileSystem): (r: Result<seq<string>>)
      ensures buildArgsFile in fs.files ==> r == Ok(SplitWhitespace(fs.files[buildArgsFile]))
      ensures buildArgsFile in fs.dirs && buildArgsFile !in fs.files ==> r == Raised("IsADirectoryError")
      ensures !fs.Exists(buildArgsFile) && targetBuildDir in fs.files && targetBuildDir !in fs.dirs ==>
        r == Raised("NotADirectoryError")
      ensures !fs.Exists(buildArgsFile) && (targetBuildDir in fs.dirs || targetBuildDir !in fs.files) ==> r == Ok([])
      ensures r.Ok? ==> forall i :: 0 <= i < |r.value| ==> IsToken(r.value[i])
    {
      if buildArgsFile in fs.files then Ok(SplitWhitespace(fs.files[buildArgsFile]))
      else if buildArgsFile in fs.dirs then Raised("IsADirectoryError")
      else if targetBuildDir in fs.files && targetBuildDir !in fs.dirs then Raised("NotADirectoryError")
      else Ok([])
    }

    /** Saving a list of non-empty, whitespace-free arguments and loading them
        again gives the same list back. */
    lemma SaveThenLoad(fs: FileSystem, args: seq<string>)
      requires forall i :: 0 <= i < |args| ==> IsToken(args[i])
      requires SaveBuildArgs(fs, args).Ok?
      ensures LoadCachedBuildArgs(SaveBuildArgs(fs, args).value) == Ok(args)
    {
      SplitJoinSpace(args);
    }

    /** Saving what was loaded leaves the file's words unchanged. */
    lemma LoadThenSave(fs: FileSystem)
      requires buildArgsFile in fs.files && SaveBuildArgs(fs, LoadCachedBuildArgs(fs).value).Ok?
      ensures LoadCachedBuildArgs(SaveBuildArgs(fs, LoadCachedBuildArgs(fs).value).value) == LoadCachedBuildArgs(fs)
    {
      SaveThenLoad(fs, LoadCachedBuildArgs(fs).value);
    }

    /** The analyser options: the skip file setting, with its spaces (the
        trailing one included) replaced by `;`. */
    function AnalyzerOptions(sharedDir: string): (r: string)
      ensures NoSpace(sharedDir) ==> NoSpace(r)
      ensures ' ' !in r
    {
      var r := ReplaceChar("--skip=" + sharedDir + "/share/codechecker/skipfile.txt ", ' ', ';');
      assert NoSpace(sharedDir) ==> NoSpace(r) by {
        if NoSpace(sharedDir) {
          NoSpaceConcat("--skip=", sharedDir);
          assert forall i :: 0 <= i < |r| ==> r[i] != ' ';
        }
      }
      r
    }

    /** `_get_extra_args_for_build_type`: the CodeChecker settings of a
        static-analysis build (`sharedDir` is the shared project's
        directory); spaces in the analyser options become `;`. */
    function ExtraArgsForBuildType(sharedDir: string, buildType: BuildType): (r: seq<string>)
      ensures buildType == Standard ==> r == []
      ensures buildType == Sca ==> |r| == 5 && forall i :: 0 <= i < 5 ==> |r[i]| > 2 && r[i][0] == '-' && r[i][1] == 'D'
      ensures buildType == Sca ==> r[1] == "-DCODECHECKER_NAME=" + target.name
      ensures buildType == Sca ==> r[2] == "-DCODECHECKER_CONFIG_FILE=" + sharedDir + "/share/codechecker/.codechecker.json"
      ensures buildType == Sca ==> r[3] == "-DCODECHECKER_ANALYZE_OPTS='" + AnalyzerOptions(sharedDir) + "'"
    {
      if buildType == Sca then
        var config := sharedDir + "/share/codechecker/.codechecker.json";
        var options := AnalyzerOptions(sharedDir);
        [ "-DZEPHYR_SCA_VARIANT=codechecker",
          "-DCODECHECKER_NAME=" + target.name,
          "-DCODECHECKER_CONFIG_FILE=" + config,
          "-DCODECHECKER_ANALYZE_OPTS='" + options + "'",
          "-DCODECHECKER_PARSE_SKIP=1" ]
      else []
    }

    /** With a whitespace-free shared directory and target name, every
        static-analysis argument is one word, so the arguments survive the
        save-and-load round trip. */
    lemma ScaArgsAreTokens(sharedDir: string)
      requires NoSpace(sharedDir) && NoSpace(target.name)
      ensures forall i :: 0 <= i < |ExtraArgsForBuildType(sharedDir, Sca)| ==>
        IsToken(ExtraArgsForBuildType(sharedDir, Sca)[i])
    {
      var r := ExtraArgsForBuildType(sharedDir, Sca);
      ScaLiteralsHaveNoSpace();
      NoSpaceConcat("-DCODECHECKER_NAME=", target.name);
      NoSpaceConcat(sharedDir, "/share/codechecker/.codechecker.json");
      NoSpaceConcat("-DCODECHECKER_CONFIG_FILE=", sharedDir + "/share/codechecker/.codechecker.json");
      NoSpaceConcat("-DCODECHECKER_ANALYZE_OPTS='", AnalyzerOptions(sharedDir));
      NoSpaceConcat("-DCODECHECKER_ANALYZE_OPTS='" + AnalyzerOptions(sharedDir), "'");
      assert IsToken(r[0]) && IsToken(r[4]);
      assert r[1] == "-DCODECHECKER_NAME=" + target.name;
      assert r[2] == "-DCODECHECKER_CONFIG_FILE=" + (sharedDir + "/share/codechecker/.codechecker.json");
      assert r[3] == "-DCODECHECKER_ANALYZE_OPTS='" + AnalyzerOptions(sharedDir) + "'";
    }

    /** The fixed parts of the static-analysis arguments hold no whitespace. */
    lemma ScaLiteralsHaveNoSpace()
      ensures NoSpace("-DZEPHYR_SCA_VARIANT=codechecker") && NoSpace("-DCODECHECKER_PARSE_SKIP=1")
      ensures NoSpace("-DCODECHECKER_NAME=") && NoSpace("'")
      ensures NoSpace("-DCODECHECKER_CONFIG_FILE=")
      ensures NoSpace("-DCODECHECKER_ANALYZE_OPTS='")
      ensures NoSpace("/share/codechecker/.codechecker.json")
    {
      ScaLiteralNoSpace1();
      ScaLiteralNoSpace2();
      ScaLiteralNoSpace3();
    }

    // Each literal costs the solver one character at a time; two per lemma
    // stay within the resource limit where all of them at once do not.
    lemma ScaLiteralNoSpace1()
      ensures NoSpace("-DZEPHYR_SCA_VARIANT=codechecker") && NoSpace("-DCODECHECKER_PARSE_SKIP=1")
    {
    }

    lemma ScaLiteralNoSpace2()
      ensures NoSpace("-DCODECHECKER_NAME=") && NoSpace("-DCODECHECKER_CONFIG_FILE=")
    {
    }

    lemma ScaLiteralNoSpace3()
      ensures NoSpace("-DCODECHECKER_ANALYZE_OPTS='") && NoSpace("/share/codechecker/.codechecker.json")
    {
    }

    /** The `west build` command for the space-joined arguments `args`. */
    function BuildCommand(pristine: bool, cmakeOnly: bool, args: string): string {
      "west build"
      + " -s " + target.parentProject.dir
      + " -d " + rootBuildDir
      + " -t " + target.cmakeTarget
      + " -b " + board.primaryBoard
      + " --sysbuild"
      + (if pristine then " --pristine" else "")
      + (if cmakeOnly then " --cmake-only" else "")
      + " --"
      + " " + args
    }

    /** The words of the command before the CMake arguments. */
    function BuildWords(pristine: bool, cmakeOnly: bool): seq<string> {
      ["west", "build"] + ["-s", target.parentProject.dir] + ["-d", rootBuildDir]
      + ["-t", target.cmakeTarget] + ["-b", board.primaryBoard] + ["--sysbuild"]
      + (if pristine then ["--pristine"] else []) + (if cmakeOnly then ["--cmake-only"] else [])
      + ["--"]
    }

    /** The words every build command starts with. */
    function FixedBuildWords(): seq<string> {
      ["west", "build"] + ["-s", target.parentProject.dir] + ["-d", rootBuildDir]
      + ["-t", target.cmakeTarget] + ["-b", board.primaryBoard] + ["--sysbuild"]
    }

    lemma {:induction false} FixedBuildWordsJoin()
      ensures JoinSpace(FixedBuildWords())
           == "west build" + " -s " + target.parentProject.dir + " -d " + rootBuildDir
              + " -t " + target.cmakeTarget + " -b " + board.primaryBoard + " --sysbuild"
    {
      var w0 := ["west", "build"];
      var w1 := w0 + ["-s", target.parentProject.dir];
      var w2 := w1 + ["-d", rootBuildDir];
      var w3 := w2 + ["-t", target.cmakeTarget];
      var w4 := w3 + ["-b", board.primaryBoard];
      assert JoinSpace(w0) == "west build";
      JoinSpaceSnocPair(w0, "-s", target.parentProject.dir, " -s ");
      JoinSpaceSnocPair(w1, "-d", rootBuildDir, " -d ");
      JoinSpaceSnocPair(w2, "-t", target.cmakeTarget, " -t ");
      JoinSpaceSnocPair(w3, "-b", board.primaryBoard, " -b ");
      JoinSpaceSnoc(w4, "--sysbuild", " --sysbuild");
      assert FixedBuildWords() == w4 + ["--sysbuild"];
    }

    lemma {:induction false} BuildCommandShape(pristine: bool, cmakeOnly: bool, args: string)
      ensures BuildCommand(pristine, cmakeOnly, args) == JoinSpace(BuildWords(pristine, cmakeOnly)) + " " + args
    {
      var w5 := FixedBuildWords();
      var w6 := w5 + (if pristine then ["--pristine"] else []);
      var w7 := w6 + (if cmakeOnly then ["--cmake-only"] else []);
      assert BuildWords(pristine, cmakeOnly) == w7 + ["--"];
      var s5 := JoinSpace(w5);
      FixedBuildWordsJoin();
      var s6 := s5 + (if pristine then " --pristine" else "");
      var s7 := s6 + (if cmakeOnly then " --cmake-only" else "");
      if pristine {
        JoinSpaceSnoc(w5, "--pristine", " --pristine");
      } else {
        assert w6 == w5 && s6 == s5;
      }
      assert JoinSpace(w6) == s6;
      if cmakeOnly {
        JoinSpaceSnoc(w6, "--cmake-only", " --cmake-only");
      } else {
        assert w7 == w6 && s7 == s6;
      }
      assert JoinSpace(w7) == s7;
      JoinSpaceSnoc(w7, "--", " --");
      assert BuildCommand(pristine, cmakeOnly, args) == s7 + " --" + " " + args;
    }

    lemma BuildWordsAreTokens(pristine: bool, cmakeOnly: bool)
      requires IsToken(target.parentProject.dir) && IsToken(rootBuildDir)
      requires IsToken(target.cmakeTarget) && IsToken(board.primaryBoard)
      ensures forall i :: 0 <= i < |BuildWords(pristine, cmakeOnly)| ==> IsToken(BuildWords(pristine, cmakeOnly)[i])
    {
      var fixed := ["west", "build", "-s", "-d", "-t", "-b", "--sysbuild", "--pristine", "--cmake-only", "--"];
      assert forall i :: 0 <= i < |fixed| ==> IsToken(fixed[i]);
      var w := BuildWords(pristine, cmakeOnly);
      forall i | 0 <= i < |w|
        ensures IsToken(w[i])
      {
        assert w[i] in fixed || w[i] in {target.parentProject.dir, rootBuildDir, target.cmakeTarget, board.primaryBoard};
      }
    }

    /** What `west` receives, split into words: `build` with the project
        directory, the root build directory, the CMake target, the board,
        `--sysbuild`, `--pristine` exactly when asked, `--cmake-only` exactly
        when asked, then `--` and the CMake arguments unchanged. */
    lemma BuildCommandWords(pristine: bool, cmakeOnly: bool, args: seq<string>)
      requires IsToken(target.parentProject.dir) && IsToken(rootBuildDir)
      requires IsToken(target.cmakeTarget) && IsToken(board.primaryBoard)
      requires forall i :: 0 <= i < |args| ==> IsToken(args[i])
      ensures SplitWhitespace(BuildCommand(pristine, cmakeOnly, JoinSpace(args))) == BuildWords(pristine, cmakeOnly) + args
    {
      var w := BuildWords(pristine, cmakeOnly);
      var cmd := BuildCommand(pristine, cmakeOnly, JoinSpace(args));
      BuildCommandShape(pristine, cmakeOnly, JoinSpace(args));
      BuildWordsAreTokens(pristine, cmakeOnly);
      if args == [] {
        assert SplitWhitespace(cmd) == w + args by {
          assert cmd == JoinSpace(w) + " ";
          SplitJoinSpaceThen(w, " ");
          assert w + args == w;
        }
      } else {
        assert SplitWhitespace(cmd) == w + args by {
          JoinSpaceAppend(w, args);
          assert cmd == JoinSpace(w + args);
          assert forall i :: 0 <= i < |w + args| ==> IsToken((w + args)[i]);
          SplitJoinSpace(w + args);
        }
      }
    }

    /** `get_build_cache` as written: it hands the build type to `BuildCache`
        as a fourth positional argument, which the constructor does not
        declare, so the call always raises before any check runs. */
    function GetBuildCacheAsWritten(): (r: Result<seq<Arg>>)
      ensures r == Raised("TypeError")
    {
      BindPositional(BuildCacheParameters, [BoardArg(board), TargetArg(target), TypeArg(buildType), PathArg(targetBuildDir)])
    }

    /** `get_build_cache` with the arguments `BuildCache` declares: the cache
        of this configuration's target build directory, carrying the
        configuration's own triplet. */
    method GetBuildCache(fs: FileSystem) returns (r: Result<BuildCache>)
      requires Valid()
      ensures r.Ok? <==> fs.Exists(targetBuildDir) && CacheFilePath(targetBuildDir) in fs.files
      ensures !fs.Exists(targetBuildDir) ==>
        r == Fatal("Build directory for the target '" + triplet + "' does not exist")
      ensures r.Ok? ==> fresh(r.value)
      ensures r.Ok? ==> r.value.triplet == triplet && r.value.board == board && r.value.target == target
      ensures r.Ok? ==> r.value.buildDir == targetBuildDir
      ensures r.Ok? ==> r.value.cmakeCache.values == ParseLines(SplitLines(TranslateNewlines(fs.files[CacheFilePath(targetBuildDir)])))
    {
      r := OpenBuildCache(board, target, targetBuildDir, fs);
    }

    /** The cached arguments a build appends: those in the file when loading
        is asked for and the file can be read. */
    function CachedPart(load: bool, fs: FileSystem): (r: Option<seq<string>>)
      ensures r.Some? <==> load && LoadCachedBuildArgs(fs).Ok?
    {
      if load && LoadCachedBuildArgs(fs).Ok? then Some(LoadCachedBuildArgs(fs).value) else None
    }

    /** The argument list `build` composes, rebinding it step by step: the
        caller's arguments (none for `None`), the build type's, then the cached
        ones when asked to load them; reading the cache file may raise. */
    method ComposeBuildArgs(sharedDir: string, extraArgs: Option<seq<string>>, load: bool, fs: FileSystem)
      returns (r: Result<seq<string>>)
      ensures r.Ok? <==> !load || LoadCachedBuildArgs(fs).Ok?
      ensures !r.Ok? ==> r == LoadCachedBuildArgs(fs)
      ensures r.Ok? ==> r.value == ComposeArgs(extraArgs, ExtraArgsForBuildType(sharedDir, buildType), CachedPart(load, fs))
    {
      var args := if extraArgs.None? then [] else extraArgs.value;
      args := args + ExtraArgsForBuildType(sharedDir, buildType);
      if load {
        var cached := LoadCachedBuildArgs(fs);
        if !cached.Ok? {
          return cached;
        }
        args := args + cached.value;
      }
      r := Ok(args);
    }

    /** `build`: refuses to load and save at once; composes the arguments;
        runs the target's pre-build step and the build command in the
        foreground, which ends the tool if the build fails; saves the
        arguments afterwards if asked; then opens the build cache. `fs` is the
        file system before the build, `built` the one the build command leaves
        behind. */
    method Build(exec: Util.Executor, sharedDir: string, extraArgs: Option<seq<string>>,
                 pristine: bool, cmakeOnly: bool, load: bool, save: bool,
                 fs: FileSystem, buildRun: Util.Process, topdirRun: Util.Process, built: FileSystem)
      returns (r: Result<BuildCache>, events: seq<BuildEvent>, after: FileSystem)
      requires Valid()
      modifies exec
      ensures load && save ==>
        r == Raised("ValueError") && events == [] && after == fs && exec.history == old(exec.history)
      ensures !(load && save) && load && LoadCachedBuildArgs(fs).Raised? ==>
        r == Raised(LoadCachedBuildArgs(fs).exception) && events == [] && exec.history == old(exec.history)
      ensures |exec.history| >= |old(exec.history)| && exec.history[..|old(exec.history)|] == old(exec.history)
      ensures r.Ok? ==>
        var args := ComposeArgs(extraArgs, ExtraArgsForBuildType(sharedDir, buildType), CachedPart(load, fs));
        BuildStepsDone(args, pristine, cmakeOnly, save, built, r.value, events, after, old(exec.history), exec.history)
      ensures r.Ok? ==>
        var args := ComposeArgs(extraArgs, ExtraArgsForBuildType(sharedDir, buildType), CachedPart(load, fs));
        BuiltLast(BuildCommand(pristine, cmakeOnly, JoinSpace(args)), old(exec.calls), exec.calls)
      ensures !(load && save) && (!load || LoadCachedBuildArgs(fs).Ok?) ==>
        var args := ComposeArgs(extraArgs, ExtraArgsForBuildType(sharedDir, buildType), CachedPart(load, fs));
        BuildEndsAs(args, pristine, cmakeOnly, save, fs, built, buildRun, topdirRun, old(exec.topdir), r, after)
    {
      events := [];
      after := fs;
      if load && save {
        return Raised("ValueError"), events, after;
      }
      var composedArgs := ComposeBuildArgs(sharedDir, extraArgs, load, fs);
      if !composedArgs.Ok? {
        return Raised(composedArgs.exception), events, after;
      }
      r, events, after := RunBuildSteps(exec, composedArgs.value, pristine, cmakeOnly, save, fs,
                                        buildRun, topdirRun, built);
    }

    /** What a successful build leaves: the build command, carrying the
        arguments, is the last command run; the events are the pre-build
        step, the build and, when saving, the write of the arguments file;
        the file system is the one the build leaves, with the arguments
        saved when asked; and the cache is this configuration's build's. */
    ghost predicate BuildStepsDone(args: seq<string>, pristine: bool, cmakeOnly: bool, save: bool,
                                   built: FileSystem, cache: BuildCache, events: seq<BuildEvent>,
                                   after: FileSystem, before: seq<Util.Cmd>, history: seq<Util.Cmd>)
    {
      var cmd := BuildCommand(pristine, cmakeOnly, JoinSpace(args));
      && |history| > |before|
      && history[|history| - 1].cmd == cmd
      && events == [PreBuild(targetBuildDir), RunBuild(cmd)] + (if save then [WriteArgs(buildArgsFile, JoinSpace(args))] else [])
      && (save ==> SaveBuildArgs(built, args).Ok? && after == SaveBuildArgs(built, args).value)
      && (!save ==> after == built)
      && cache.triplet == triplet && cache.buildDir == targetBuildDir
    }

    /** How `build` ends once its arguments `args` are composed: the build
        command, or the lookup of the west top directory before it, may end
        the tool; otherwise saving may raise; otherwise the file system is the
        one the build left, with the arguments saved when asked, and the build
        cache opens exactly when the target build directory and its cache file
        exist there. */
    ghost predicate BuildEndsAs(args: seq<string>, pristine: bool, cmakeOnly: bool, save: bool,
                                fs: FileSystem, built: FileSystem, buildRun: Util.Process, topdirRun: Util.Process,
                                topdir: Option<string>, r: Result<BuildCache>, after: FileSystem)
    {
      var end := Util.RunEnd(BuildCommand(pristine, cmakeOnly, JoinSpace(args)), Util.Foreground, None, true,
                             buildRun, topdirRun, fs, topdir);
      if end.Some? then r == Fatal(end.value) && after == fs
      else if save && !SaveBuildArgs(built, args).Ok? then
        r == Raised(SaveBuildArgs(built, args).exception) && after == built
      else
        var saved := if save then SaveBuildArgs(built, args).value else built;
        after == saved && (r.Ok? <==> saved.Exists(targetBuildDir) && CacheFilePath(targetBuildDir) in saved.files)
    }

    /** The build command through `run_command` in the foreground with the
        default `fatal`: it is the last command run and the last call made,
        unless the tool ends first. */
    method RunBuildCommand(exec: Util.Executor, cmd: string, buildRun: Util.Process, topdirRun: Util.Process,
                           fs: FileSystem)
      returns (run: Util.RunOutcome)
      modifies exec
      ensures |exec.history| > |old(exec.history)| && exec.history[..|old(exec.history)|] == old(exec.history)
      ensures run.Returned? || run.Terminated?
      ensures Util.EndOf(run) == Util.RunEnd(cmd, Util.Foreground, None, true, buildRun, topdirRun, fs, old(exec.topdir))
      ensures run.Returned? ==>
        && exec.history[|exec.history| - 1].cmd == cmd
        && |exec.calls| > |old(exec.calls)|
        && exec.calls[|exec.calls| - 1].cmd == cmd && exec.calls[|exec.calls| - 1].mode == Util.Foreground
    {
      run := exec.RunCommand(cmd, Util.Foreground, None, true, buildRun, topdirRun, fs);
    }

    /** The last call made is `cmd`, run in the foreground. */
    ghost predicate BuiltLast(cmd: string, before: seq<Util.Call>, calls: seq<Util.Call>) {
      |calls| > |before| && calls[|calls| - 1].cmd == cmd && calls[|calls| - 1].mode == Util.Foreground
    }

    /** The steps of `build` after the arguments are composed. */
    method RunBuildSteps(exec: Util.Executor, args: seq<string>, pristine: bool, cmakeOnly: bool, save: bool,
                         fs: FileSystem, buildRun: Util.Process, topdirRun: Util.Process, built: FileSystem)
      returns (r: Result<BuildCache>, events: seq<BuildEvent>, after: FileSystem)
      requires Valid()
      modifies exec
      ensures |exec.history| >= |old(exec.history)| && exec.history[..|old(exec.history)|] == old(exec.history)
      ensures r.Ok? ==> BuildStepsDone(args, pristine, cmakeOnly, save, built, r.value, events, after, old(exec.history), exec.history)
      ensures r.Ok? ==> BuiltLast(BuildCommand(pristine, cmakeOnly, JoinSpace(args)), old(exec.calls), exec.calls)
      ensures BuildEndsAs(args, pristine, cmakeOnly, save, fs, built, buildRun, topdirRun, old(exec.topdir), r, after)
    {
      events := [];
      after := fs;
      var argsText := if args != [] then JoinSpace(args) else "";
      assert argsText == JoinSpace(args);
      events := events + [PreBuild(targetBuildDir)];
      var cmd := BuildCommand(pristine, cmakeOnly, argsText);
      var run := RunBuildCommand(exec, cmd, buildRun, topdirRun, fs);
      events := events + [RunBuild(cmd)];
      if run.Terminated? {
        return Fatal(run.message), events, after;
      }
      var written;
      r, written, after := SaveAndOpen(args, save, built);
      events := events + written;
    }

    /** The end of `build`: saves the arguments when asked, then opens the
        build cache; `written` is the write of the arguments file, if any. */
    method SaveAndOpen(args: seq<string>, save: bool, built: FileSystem)
      returns (r: Result<BuildCache>, written: seq<BuildEvent>, after: FileSystem)
      requires Valid()
      ensures save && !SaveBuildArgs(built, args).Ok? ==> r == Raised(SaveBuildArgs(built, args).exception) && after == built
      ensures !save || SaveBuildArgs(built, args).Ok? ==>
        var saved := if save then SaveBuildArgs(built, args).value else built;
        after == saved && (r.Ok? <==> saved.Exists(targetBuildDir) && CacheFilePath(targetBuildDir) in saved.files)
      ensures r.Ok? ==>
        && written == (if save then [WriteArgs(buildArgsFile, JoinSpace(args))] else [])
        && (save ==> SaveBuildArgs(built, args).Ok? && after == SaveBuildArgs(built, args).value)
        && (!save ==> after == built)
        && r.value.triplet == triplet && r.value.buildDir == targetBuildDir
    {
      written := [];
      after := built;
      if save {
        var saved := SaveBuildArgs(built, args);
        if !saved.Ok? {
          return Raised(saved.exception), written, after;
        }
        after := saved.value;
        written := [WriteArgs(buildArgsFile, JoinSpace(args))];
      }
      r := GetBuildCache(after);
    }
  }
}
