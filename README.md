# gale-manifest: the build, cache and BabbleSim core in Dafny

`gale` is a command-line tool around `west` and Zephyr. It builds a target for
a board, reads the generated `CMakeCache.txt`, and runs BabbleSim builds as
simulated devices linked by one PHY. This project models the parts of the tool
that have sequential logic, and proves properties of them:

- **The command executor** (`util.dfy`, module `Util`). `run_command` records
  every command in a history that only grows. The execution mode decides
  whether the call waits for the worker thread. The worker classifies the exit
  code into the handle's `code` and `stdout`, or ends the tool. On an
  interrupt, `_cleanup` walks the history newest first. The `get_*_dir` paths
  are derived from the west top directory.
- **The `CMakeCache.txt` reader** (`cmake_cache_text.dfy`, module
  `CMakeCacheText`). It matches the regular expression
  `^([^\s:]+):\w*=(.*)$` by hand, character by character, and fills the value
  dictionary line by line. The tool has three copies of the reader, and they
  share this grammar and this loop. Each copy's classes and accessors are
  modelled in their own module:
  - `structs.dfy`, module `Structs`, which also holds the board, project and
    target records, `is_bsim` and the triplet;
  - `build_cache.dfy`, module `BuildCacheFile`;
  - `project_cache.dfy`, module `ProjectCacheFile`.
- **The build configuration** (`configuration.dfy`, module
  `BuildConfiguration`). It derives the build directories, composes the CMake
  arguments, and saves them to or loads them from `build_args.txt`. It
  assembles the `west build` command and runs it.
- **The BabbleSim run task** (`tasks.dfy`, module `BsimTasks`).
  `task_run_app_in_bsim` stages the run directory and builds the common
  arguments. It then starts three things, counting devices as it goes:
  - the application, directly or under gdb;
  - the handbrake device, in real time only;
  - the PHY.

Two helper modules hold what the Python runtime provides. `common.dfy` holds
optional values, results, an abstract file system and path joining.
`text.dfy` holds `str.strip`, `" ".join`, `str.split()`, substring search,
`str(int)` and line iteration.

Outcomes are modelled as follows:
- A call of `log.fatal` is the outcome `Fatal(message)`.
- An uncaught Python exception is `Raised(<class name>)`.
- Processes are abstract values: exit code, output texts, and whether the
  process ends within `_cleanup`'s short wait or on SIGTERM.
- The file system is a value with a set of directories and a map from file
  path to contents.

Where the sources are inconsistent, the model takes these positions:
- `CmdMode` in `src/gale/util.py:37-41` has four members, but the BabbleSim
  task launches with `SPAWN_NEW_TERMINAL` (`src/gale/tasks.py:127`). The model
  gives the mode a fifth value. `run_command` has no branch for it, so it takes
  the final `else` branch, like `CAPTURE_RESULT`.
- `NRF5340_BSIM_BOARD` is imported by `src/gale/tasks.py:8`, but
  `src/gale/data/boards.py` does not define it. The dual-domain board is a
  parameter of `BsimTasks.RunAppInBsim`, compared by equality as at
  `src/gale/tasks.py:85`.
- `get_triplet` is imported by `src/gale/configuration.py:5` but defined
  nowhere. The configuration uses the triplet format of
  `src/gale/data/structs.py:126`, so the build type does not enter it.
- `board.primary_board` (`src/gale/configuration.py:95`) is not a field of
  `Board`. It is an opaque string field of the model's `Board`.
- `BuildType` is imported but defined nowhere. It is modelled as
  `Sca | Standard`.
- `Target.build_subdir` defaults to `None`, and `Path / None` would raise. The
  model takes it to be a string, as every defined target sets it.

## Model

| member | source | states |
|---|---|---|
| Util.Classify | src/gale/util.py:111-120 | `code` is the return code. Exit 0 stores the stripped stdout, or `code 0` when there is none. `-SIGINT`/`-SIGTERM` warn and leave `stdout` alone. Any other code stores the stripped stderr, or `code N`. The tool ends exactly when `fatal` is set and the code is neither 0 nor a termination signal, with the message ``Cmd `<cmd>` failed: <stdout>`` |
| Util.ClassifiedOutputIsStripped | src/gale/util.py:113-118 | Whatever text the worker stores in `stdout` has no whitespace at either end |
| Util.SignalledExitIsNeverFatal | src/gale/util.py:115-116 | Termination by SIGINT or SIGTERM never ends the tool, whatever `fatal` says, and leaves `stdout` untouched |
| Util.CallEndIff | src/gale/util.py:96-131 | In an existing working directory, a call ends the tool before `run_command` returns exactly when it blocks, `fatal` is set and its process fails without being terminated by a signal. In a missing directory a blocking call always ends it, with ``Invalid working directory <cwd>`` |
| Util.Cmd.constructor | src/gale/util.py:23-31 | A new handle holds its command, code 0, empty output, no process, no thread and no pending work |
| Util.Cmd.Join | src/gale/util.py:96-123 | Joining the worker: a missing working directory is fatal whatever `fatal` says; a path that is a file ends the worker without ending the tool. In both cases the process never starts, and `code`, `stdout` and the process state stay as they were. Otherwise the process finishes, `code` is the exit code and `stdout` is what `Classify` stores or left alone. A handle without pending work is unchanged |
| Util.Executor.constructor | src/gale/util.py:34 | The history starts empty and no top directory is cached |
| Util.Executor.Launch | src/gale/util.py:64-131 | Exactly one new handle for the command is appended, before anything else happens, and the call is logged with its command, mode and working directory. `REPLACE` never returns a handle: the model takes `execve` to replace the process image, and a bad working directory lets the `chdir` exception escape. `BACKGROUND` returns the handle unjoined, with its work pending, and never ends the tool. `FOREGROUND`, `CAPTURE_RESULT` and `SPAWN_NEW_TERMINAL` join the worker first, and only the last two capture output. Such a call ends the tool exactly when its worker does, with that message; otherwise the handle holds the worker's output |
| Util.Executor.GetWestTopdir | src/gale/util.py:177-186 | The first call records exactly one command, `west topdir`, run with captured output in `.`. It is fatal exactly when that call ends the tool, with its message. Otherwise it answers with that handle's output and caches it. Later calls return the cached answer and record nothing |
| Util.Executor.RunCommand | src/gale/util.py:44-131 | The history grows and keeps its old entries. With a working directory, exactly the given command is appended. Without one, the first call also records `west topdir` before it. The last entry is the returned handle. Whenever it returns, the last call logged is the command, in the mode asked for. Outside `REPLACE` it returns the handle or ends the tool, and it ends the tool exactly when the `west topdir` lookup or the command's own blocking call does, in the directory given or looked up. `BACKGROUND` returns before the worker finishes. `REPLACE` never returns a handle |
| Util.Executor.Cleanup | src/gale/util.py:134-147 | The steps taken and the final outcome are exactly those of `CleanupFrom` over the whole history: a process that ignores the wait and SIGTERM lets `TimeoutExpired` escape, and joining a background worker whose work ends the tool ends it there with that fatal message |
| Util.CleanupNewestFirst | src/gale/util.py:136-137 | Handles are visited newest first: the positions of the steps never increase |
| Util.CleanupSignalsOnlyStragglers | src/gale/util.py:138-143 | SIGTERM is sent only to processes still running after the short wait |
| Util.CleanupFinishesIff | src/gale/util.py:137-147 | The walk reaches the end, exiting with status 0, exactly when no process ignores both the wait and SIGTERM and no joined background worker ends the tool |
| Util.CleanupCoversEveryHandle | src/gale/util.py:137-146 | A completed walk joins the thread of exactly the handles that have one, and signals exactly the stragglers |
| Util.CleanupStopsAtNewestHalt | src/gale/util.py:134-147 | A walk that stops early stops at the newest handle that is stuck or whose joined worker ends the tool, and ends as that handle dictates |
| Util.FailedBackgroundWorkerEndsCleanup | src/gale/util.py:110-146 | A background command that fails with `fatal` set, whose worker is still pending, makes the join in `_cleanup` end the tool with ``Cmd `<cmd>` failed: code 1`` |
| Util.DirectoryChain | src/gale/util.py:189-206 | The BabbleSim directory is `<topdir>/gale/projects/tools/bsim`, through the manifest, projects and tools directories |
| Text.Strip | src/gale/data/structs.py:86 | `str.strip()`: the result is a contiguous piece of the input, only whitespace is cut off either side, and neither end of the result is whitespace |
| Text.StripIdempotent | src/gale/util.py:114 | Stripping twice is stripping once |
| Text.HasInfix | src/gale/data/structs.py:30 | The left-to-right search answers exactly whether the text occurs in the string |
| Text.SplitJoinSpace | src/gale/configuration.py:25-32 | `str.split()` undoes `" ".join` for words that are non-empty and free of whitespace |
| Text.SplitLinesConcat | src/gale/data/structs.py:84-85 | Iterating a text by lines loses nothing: the lines put back together are the text |
| Text.SplitLinesLeaveOut | src/gale/data/structs.py:84-85 | A character absent from the text is absent from every line |
| Text.TranslateNewlines | src/gale/data/structs.py:84 | Reading in text mode with universal newlines leaves no carriage return, and leaves a text without one unchanged |
| Text.TranslateAfterPlain | src/gale/data/structs.py:84 | Text before the first carriage return passes through unchanged |
| Text.CarriageReturnEndsLine | src/gale/data/structs.py:84-85 | A carriage return followed by a line feed, or standing alone, becomes one line feed |
| Text.DecimalValueOfNat | src/gale/tasks.py:120-161 | A count printed with `str` reads back as the same number |
| Text.ReplaceChar | src/gale/configuration.py:43 | `replace(" ", ";")` keeps the length, changes exactly the spaces, and leaves none |
| CMakeCacheText.MatchLineSound | src/gale/data/structs.py:82-88 | Every match the hand-written matcher reports is a match of `^([^\s:]+):\w*=(.*)$` with the same two groups |
| CMakeCacheText.MatchLineComplete | src/gale/data/structs.py:82-88 | Every line the regular expression accepts is accepted by the matcher with the same groups |
| CMakeCacheText.StoredValue | src/gale/data/structs.py:89 | An empty value is stored as `None`, any other value as itself |
| CMakeCacheText.ReadEntries | src/gale/data/structs.py:84-89 | The line loop leaves the dictionary that `ParseWith` describes: lines in order, a later entry for a key replacing an earlier one |
| CMakeCacheText.ParseCacheLines | src/gale/data/structs.py:84-89 | The loop with the strip-then-match reader yields `ParseLines` of the lines it is given |
| CMakeCacheText.LastEntryWins | src/gale/data/structs.py:84-89 | For any line reader, the last line that defines a key decides its stored value |
| CMakeCacheText.UndefinedEntryAbsent | src/gale/data/structs.py:84-89 | For any line reader, a key that no line defines is absent |
| CMakeCacheText.ParsedEntryHasLine | src/gale/data/structs.py:84-89 | For any line reader, every key in the dictionary comes from some line |
| CMakeCacheText.LastLineWins | src/gale/data/structs.py:84-89 | The last line of the file that matches with a key decides that key's value |
| CMakeCacheText.UndefinedKeyAbsent | src/gale/data/structs.py:84-89 | Lines that do not match, or that match another key, leave a key out of the dictionary |
| CMakeCacheText.ParsedKeyHasLine | src/gale/data/structs.py:84-89 | Every key in the dictionary comes from a matching line of the file |
| CMakeCacheText.Render | src/gale/data/structs.py:93 | `str(value)`: a stored `None` reads as the text `None` |
| CMakeCacheText.Lookup | src/gale/data/structs.py:91-95 | `get` succeeds exactly for keys in the dictionary, with the rendered value; otherwise it is fatal with `CMakeCache <path> does not define <key>` |
| CMakeCacheText.EmptyValueReadsNone | src/gale/data/structs.py:89-93 | A key whose last defining line has an empty value reads back as `None` |
| CMakeCacheText.LocateCacheFile | src/gale/data/structs.py:131-140 | A missing build directory is fatal with the first message. Then a missing cache file is fatal with the second. Only when both exist is the cache file's path given |
| CMakeCacheText.ReadLines | src/gale/data/structs.py:84-85 | A file can be read exactly when it is a regular file. Its lines put back together are its text after universal-newline translation, and no line holds a carriage return. A directory in its place raises `IsADirectoryError` |
| Structs.IsBsim | src/gale/data/structs.py:28-30 | A board is a BabbleSim board exactly when `bsim` occurs in its name |
| Structs.TripletSplits | src/gale/data/structs.py:126 | With colon-free names, splitting the triplet at `:` gives back board, project and target names |
| Structs.TripletIdentifiesBuild | src/gale/data/structs.py:126-127 | With colon-free names, equal triplets mean equal board, project and target names |
| Structs.CMakeCache.constructor | src/gale/data/structs.py:79-89 | The cache keeps its path, and its values are the parse of the lines it is given. Reading and translating the file is stated by Structs.OpenBuildCache and CMakeCacheText.ReadLines |
| Structs.CMakeCache.Get | src/gale/data/structs.py:91-95 | Succeeds exactly for a present key, with `str` of its value; otherwise fatal with the path and key |
| Structs.CMakeCache.Gdb | src/gale/data/structs.py:97-99 | Reads `CMAKE_GDB`, fatal when absent |
| Structs.CMakeCache.ZephyrBase | src/gale/data/structs.py:101-103 | Reads `ZEPHYR_BASE`, fatal when absent |
| Structs.CMakeCache.ExePath | src/gale/data/structs.py:105-107 | Reads `BYPRODUCT_KERNEL_EXE_NAME`, fatal when absent |
| Structs.CMakeCache.ElfPath | src/gale/data/structs.py:109-111 | Reads `BYPRODUCT_KERNEL_ELF_NAME`, fatal when absent |
| Structs.CMakeCache.BsimOutPath | src/gale/data/structs.py:113-115 | Reads `BSIM_OUT_PATH`, fatal when absent |
| Structs.BuildCache.constructor | src/gale/data/structs.py:121-128 | Keeps board, target and build directory; the triplet is `<board>:<project>:<target>` |
| Structs.OpenBuildCache | src/gale/data/structs.py:121-145 | Fatal for a missing build directory, then for a missing `CMakeCache.txt`, both before parsing. A directory named `CMakeCache.txt` raises. Otherwise the cache holds the parse of the file's translated text, under the right path, board, target and triplet |
| BuildCacheFile.CMakeCache.constructor | src/gale/build_cache.py:10-20 | Same parse of the lines it is given as the structs copy; the file is read by BuildCacheFile.OpenBuildCache |
| BuildCacheFile.CMakeCache.Get | src/gale/build_cache.py:22-26 | Succeeds exactly for a present key with `str` of its value; otherwise fatal |
| BuildCacheFile.CMakeCache.Gdb | src/gale/build_cache.py:28-30 | Reads `CMAKE_GDB`, fatal when absent |
| BuildCacheFile.CMakeCache.ZephyrBase | src/gale/build_cache.py:32-34 | Reads `ZEPHYR_BASE`, fatal when absent |
| BuildCacheFile.CMakeCache.ExePath | src/gale/build_cache.py:36-38 | Reads `BYPRODUCT_KERNEL_EXE_NAME`, fatal when absent |
| BuildCacheFile.CMakeCache.ElfPath | src/gale/build_cache.py:40-42 | Reads `BYPRODUCT_KERNEL_ELF_NAME`, fatal when absent |
| BuildCacheFile.BuildCache.constructor | src/gale/build_cache.py:48-52 | Keeps the triplet verbatim and the build directory |
| BuildCacheFile.OpenBuildCache | src/gale/build_cache.py:48-67 | Fatal for a missing build directory, then for a missing cache file, before parsing; otherwise the parse of the file with the triplet verbatim |
| ProjectCacheFile.CMakeCache.constructor | src/gale/project_cache.py:11-21 | Same parse of the lines it is given as the structs copy; the file is read by ProjectCacheFile.OpenProjectCache |
| ProjectCacheFile.CMakeCache.Get | src/gale/project_cache.py:23-27 | Succeeds exactly for a present key with `str` of its value; otherwise fatal |
| ProjectCacheFile.CMakeCache.Gdb | src/gale/project_cache.py:29-31 | Reads `CMAKE_GDB`, fatal when absent |
| ProjectCacheFile.CMakeCache.ZephyrBase | src/gale/project_cache.py:33-35 | Reads `ZEPHYR_BASE`, fatal when absent |
| ProjectCacheFile.CMakeCache.NativeExecutable | src/gale/project_cache.py:37-39 | Reads `BYPRODUCT_KERNEL_EXE_NAME`, fatal when absent |
| ProjectCacheFile.ProjectCache.constructor | src/gale/project_cache.py:45-54 | Keeps the build directory, and the cache file is `<build dir>/CMakeCache.txt` |
| ProjectCacheFile.OpenProjectCache | src/gale/project_cache.py:45-55 | Fatal for a missing build directory, then for a missing cache file, each with its own message and before parsing; otherwise the parse of the file |
| BuildConfiguration.BindPositional | src/gale/configuration.py:120 | A call binds only when it supplies exactly the declared number of positional arguments, else `TypeError` |
| BuildConfiguration.BuildArgsFileLocation | src/gale/configuration.py:17-20 | The argument file is `<project dir>/build/<board>:<project>:<target>/<build subdir>/build_args.txt` |
| BuildConfiguration.RootBuildDirIdentifiesTriplet | src/gale/configuration.py:17-18 | Within one project, equal root build directories mean equal triplets |
| BuildConfiguration.ComposeArgsOrder | src/gale/configuration.py:81-86 | The final arguments are the caller's, then the build type's, then the cached ones when loaded, each part unchanged; no caller arguments is the same as an empty list |
| BuildConfiguration.Configuration.constructor | src/gale/configuration.py:13-20 | Keeps board, target and build type and derives triplet, root build directory, target build directory and argument file |
| BuildConfiguration.Configuration.SaveBuildArgs | src/gale/configuration.py:22-26 | Succeeds exactly when the argument file's directory is a directory and the file is not one. It then writes exactly the space-joined arguments to the file and changes nothing else. A missing directory raises `FileNotFoundError`, a regular file in the directory's place `NotADirectoryError`, and a directory in the file's place `IsADirectoryError` |
| BuildConfiguration.Configuration.LoadCachedBuildArgs | src/gale/configuration.py:28-37 | A regular file gives exactly its whitespace-separated words. A directory in its place raises `IsADirectoryError`. With no file, a regular file in place of its directory raises `NotADirectoryError`; otherwise the `FileNotFoundError` is caught and there are no arguments |
| BuildConfiguration.Configuration.SaveThenLoad | src/gale/configuration.py:22-37 | Saving non-empty, whitespace-free arguments and loading them gives the same list back |
| BuildConfiguration.Configuration.LoadThenSave | src/gale/configuration.py:22-37 | Saving what was loaded leaves the loaded words unchanged |
| BuildConfiguration.Configuration.AnalyzerOptions | src/gale/configuration.py:42-43 | The analyser options contain no space, and no whitespace at all when the shared directory has none |
| BuildConfiguration.Configuration.ExtraArgsForBuildType | src/gale/configuration.py:39-52 | A static-analysis build adds exactly five `-D` arguments; any other build type adds none. The second is `-DCODECHECKER_NAME=<target name>`. The third is `-DCODECHECKER_CONFIG_FILE=<shared dir>/share/codechecker/.codechecker.json`. The fourth carries the analyser options, with their spaces replaced by `;`, between single quotes |
| BuildConfiguration.Configuration.ScaArgsAreTokens | src/gale/configuration.py:39-52 | With a whitespace-free shared directory and target name, each static-analysis argument is one word, so it survives the save-and-load round trip |
| BuildConfiguration.Configuration.BuildCommandShape | src/gale/configuration.py:90-101 | The command is its fixed words joined by spaces, then a space and the argument text |
| BuildConfiguration.Configuration.BuildCommandWords | src/gale/configuration.py:87-101 | Split into words, the command is `west build -s <project dir> -d <root build dir> -t <target> -b <board>`, then `--sysbuild`. `--pristine` follows exactly when asked, and so does `--cmake-only`. Then come `--` and the arguments unchanged |
| BuildConfiguration.Configuration.GetBuildCacheAsWritten | src/gale/configuration.py:115-120 | As written, looking up the build cache always raises `TypeError` |
| BuildConfiguration.Configuration.GetBuildCache | src/gale/configuration.py:115-120 | Corrected lookup: it succeeds exactly when the target build directory and its cache file exist. The cache has the configuration's triplet, board, target and directory, and the parse of the file |
| BuildConfiguration.Configuration.CachedPart | src/gale/configuration.py:85-86 | Cached arguments are appended exactly when loading is asked for and the file can be read |
| BuildConfiguration.Configuration.ComposeBuildArgs | src/gale/configuration.py:81-87 | The rebinding steps give `ComposeArgs` of the three parts. Only an unreadable argument file makes them fail, with its exception |
| BuildConfiguration.Configuration.Build | src/gale/configuration.py:54-113 | Load with save raises `ValueError` before any command or file effect. An unreadable argument file raises its exception before any command. The history only grows. Otherwise `build` ends as `BuildEndsAs` says: the tool ends exactly when the build command, or the `west topdir` lookup before it, ends it. Failing that, a failed save raises its exception. Failing that, the build succeeds exactly when the target build directory and its cache file exist afterwards. On success the build command with the composed arguments ran last, after the pre-build step, and is the last call logged, in the foreground. The arguments file is written after it exactly when saving, and the cache is this configuration's |
| BuildConfiguration.Configuration.RunBuildSteps | src/gale/configuration.py:87-111 | From composed arguments, the history only grows. The outcome is exactly the one `BuildEndsAs` gives: fatal exactly when the build command or the top-directory lookup ends the tool, then the save's exception, then success exactly when the build directory and its cache file exist. On success the pre-build step and then the build command carrying the arguments ran, the latter as the last command recorded and the last call logged, in the foreground. The arguments file is written after it exactly when saving, and the cache is this configuration's |
| BsimTasks.StagingStaysInRunDir | src/gale/tasks.py:50-78 | Staging first creates the run directory `<project dir>/bsim/<triplet>`; every later step writes below it |
| BsimTasks.AppendedCommonArgs | src/gale/tasks.py:58-104 | Appending ` <arg>` for trace file, flash text and resync offset gives one space followed by the words joined by spaces |
| BsimTasks.CommonArgWordsAreTokens | src/gale/tasks.py:75-104 | With a whitespace-free results directory, every common argument is one word |
| BsimTasks.CommonArgsSplit | src/gale/tasks.py:58-104 | Split into words, the common-argument text is exactly the intended argument list |
| BsimTasks.MroIffRealTime | src/gale/tasks.py:97-104 | `--mro=5000` is among the common arguments exactly in real time |
| BsimTasks.TraceIffTracing | src/gale/tasks.py:75-82 | `--trace-file=<results>/trace_data` is among them exactly when tracing |
| BsimTasks.FlashFormsExclusive | src/gale/tasks.py:84-95 | The dual-domain board gets the app and net flash files and not the single one; every other board gets the single one and neither of the others |
| BsimTasks.LaunchPlanShape | src/gale/tasks.py:106-167 | The launches are the application as device 0, then the handbrake as device 1 in real time only, then the PHY, all in the staged `bin` directory |
| BsimTasks.LaunchPlanNumbersDevices | src/gale/tasks.py:62-167 | Every launch before the last carries `-s=<sim> -d=<its position>`. The last is the PHY, in the foreground, with `-D=` the number of devices before it. Every launch runs in `bin` and names the simulation id |
| BsimTasks.LaunchModes | src/gale/tasks.py:107-167 | Under gdb the application gets a new terminal, otherwise the background; the handbrake runs in the background; only the PHY runs in the foreground |
| BsimTasks.OnlyAppGetsCommonArgs | src/gale/tasks.py:118-161 | The common arguments reach only the application: changing them changes its command and no other launch |
| BsimTasks.PhyReadsDeviceCount | src/gale/tasks.py:122-161 | The PHY's `-D=` reads back as the number of devices launched before it |
| BsimTasks.RunPlanShape | src/gale/tasks.py:106-167 | The planned calls for a staged run directory, one by one: the application in its mode, the handbrake in the background in real time only, the PHY in the foreground, each with its command and all in `<run dir>/bin` |
| BsimTasks.BuildCommonArgs | src/gale/tasks.py:58-104 | The `+=` steps build exactly the common-argument text |
| BsimTasks.RunInDir | src/gale/tasks.py:140-145 | A launch with an explicit working directory appends exactly its command to the history and exactly one call, with its mode and that directory, to the call log. It returns the handle or ends the tool, and it ends the tool exactly when that blocking call's worker does; a background launch always returns |
| BsimTasks.LaunchDevices | src/gale/tasks.py:106-167 | The device counter numbers the launches as planned, and the calls made follow the plan in order, each with its command, mode and directory. An application that ends the tool, possible only in a blocking mode such as the run task's gdb terminal, is the only call made and makes the outcome fatal with its message. Otherwise every planned call is made, the handbrake never ends the tool, and the outcome is fatal exactly when the PHY ends it, with its message |
| BsimTasks.StartSimulation | src/gale/tasks.py:58-167 | Asking for gdb when the cache names no debugger is fatal, with nothing launched or called. Otherwise the launches go as `LaunchDevices` states, in the staged `bin` directory. Without gdb every planned call is made, and the outcome is fatal exactly when the PHY ends the tool |
| BsimTasks.RunAppInBsim | src/gale/tasks.py:14-167 | A missing executable path, a missing executable or a missing BabbleSim path is fatal before anything is staged, launched or called. Otherwise the staging plan is recorded. A missing debugger under gdb is fatal before any call. Otherwise the run task's plan is launched as `LaunchDevices` states: without gdb every planned call is made, each with its command, mode and working directory, and the outcome is fatal exactly when the application under gdb or the PHY ends the tool |

## Left out

- Processes, threads, pseudo-terminals, `os.execve` and the signal handler's installation are not modelled. A process is a value that says what it would do. A background handle's worker is pending work that runs when it is joined.
- Logging is left out: `log.inf`, `log.dbg` and `log.wrn` produce no output. The only trace of a warning is `Verdict.warned`. `log.fatal` is the `Fatal` outcome, and its exit status is not modelled.
- The `desc` argument of `run_command` only feeds logging, so it is dropped.
- Python's `\s`, `\w`, `str.isspace` and `str.strip` are modelled on ASCII only. Non-ASCII whitespace and word characters are not.
- Paths are joined as text with one `/`. `pathlib` normalisation, absolute paths and `Path.absolute()` are not modelled.
- `shutil.copytree`, `shutil.copy` and `mkdir` in `src/gale/tasks.py:55-78` are recorded as a staging plan and assumed to succeed. Their own failures are not modelled.
- The log of calls, with mode and working directory, is ghost state of the model. A `Cmd` handle keeps neither, and the tool keeps no such log.
- Util.Executor.Launch: with `REPLACE`, the model takes `os.execve` to succeed. `os.execve` does no `PATH` search, so a command whose first word is not a path to an executable, such as `west`, raises `FileNotFoundError` there; that exception is not modelled.
- Util.Executor.Cleanup: the handles' fields are not updated by the joins during the walk, because the tool exits right after it.
- BuildConfiguration.Configuration.SaveBuildArgs: only the argument file's own directory is examined. A regular file further up the path, which also raises `NotADirectoryError`, counts as a missing directory.
- BuildConfiguration.Configuration.LoadCachedBuildArgs: no longer promises no arguments whenever the file is missing. A regular file in place of its directory raises `NotADirectoryError`, which is not caught. Only the immediate directory is examined, as for saving. The words are split from the stored text without newline translation; translation only turns carriage returns into line feeds, both whitespace, and that equivalence is not proved.
- Text-mode reading is modelled with universal newlines only. Encodings and decoding errors are not modelled.
- Util.Executor.RunCommand: the handle's fields after a blocking run are stated by Util.Executor.Launch, which it calls, and not again here.
- `SPAWN_NEW_TERMINAL` has no branch in `run_command`, so it is modelled as the capture branch. A terminal emulator is not modelled.
- `target.pre_build` is defined on no target class, so it is the abstract `PreBuild` event.
- `target.post_build` after the build belongs to the post-build task outside this core, and is not modelled.
- `Board.env`, `Target.run`, `in_venv`, `install_system_packages` and `source_environment` are outside this core and are not modelled.
- `is_localhost_port_open`, `run_codechecker` and the other tasks of `src/gale/tasks.py` are outside this core and are not modelled.
- The board, project and target registries are not modelled. The shared project's and Zephyr's directories are parameters.
- The CLI wiring and the `scripts/` helpers are not part of this model.

## Findings

| source | as written | input that shows it | evidently intended | confidence | as-written member | corrected member |
|---|---|---|---|---|---|---|
| src/gale/configuration.py:115-120 | `get_build_cache` passes board, target, build type and build directory to `BuildCache`, whose constructor at src/gale/data/structs.py:121 takes board, target and build directory | any configuration: the call supplies four positional arguments for three parameters and raises `TypeError`, so `build` can never return its cache | `BuildCache(board, target, target_build_dir)` | high; not executed | BuildConfiguration.Configuration.GetBuildCacheAsWritten | BuildConfiguration.Configuration.GetBuildCache |
