/** `task_run_app_in_bsim` of `gale.tasks`: stages a BabbleSim build into the
    project's run directory and starts the simulated devices and the PHY that
    links them by one simulation id. */
module BsimTasks {
  import opened Common
  import opened Text
  import opened Structs
  import Util

  /** A file-system effect of staging. `CopyInto` copies a file into a
      directory under its own name; `CopyTo` copies it to an explicit path. */
  datatype Staging =
    | MakeDir(path: string)
    | CopyTree(source: string, destination: string)
    | CopyInto(source: string, directory: string)
    | CopyTo(source: string, destination: string)

  /** One `run_command` call of the run task: command, mode and working directory. */
  type Launch = Util.Call

  /** How the application device is started: directly, or inside a gdb
      text UI reading the given init file. */
  datatype AppFrontEnd = Direct | UnderGdb(gdb: string, gdbinit: string)

  /** How often, in the source's unit, the handbrake pokes the simulation; also
      the maximum resync offset passed to the application in real time. */
  const HandbrakeInterval: nat := 5000

  // ------------------------------------------------------------- directories

  /** `<project dir>/bsim/<triplet>`: where one build is staged and run. */
  function RunDir(projectDir: string, triplet: string): string {
    Join(Join(projectDir, "bsim"), triplet)
  }

  function RunBinDir(runDir: string): string { Join(runDir, "bin") }
  function RunLibDir(runDir: string): string { Join(runDir, "lib") }
  function ResultsDir(runDir: string): string { Join(runDir, "results") }

  /** The gdb init file of the shared project. */
  function GdbInit(sharedDir: string): string {
    Join(Join(Join(sharedDir, "share"), "gdb"), ".gdbconf")
  }

  /** Zephyr's CTF metadata, copied next to the trace data. */
  function TraceMetadata(zephyrDir: string): string {
    Join(zephyrDir, "subsys/tracing/ctf/tsdl/metadata")
  }

  /** The file-system effects of staging, in order. */
  function StagingPlan(exe: string, bsimOut: string, runDir: string, zephyrDir: string, tracing: bool): seq<Staging> {
    [ MakeDir(runDir), MakeDir(ResultsDir(runDir)),
      CopyTree(Join(bsimOut, "bin"), RunBinDir(runDir)),
      CopyTree(Join(bsimOut, "lib"), RunLibDir(runDir)),
      CopyInto(exe, RunBinDir(runDir)) ]
    + (if tracing then [CopyTo(TraceMetadata(zephyrDir), Join(ResultsDir(runDir), "metadata"))] else [])
  }

  /** The place a staging step writes to. */
  function Destination(s: Staging): string {
    match s
    case MakeDir(p) => p
    case CopyTree(_, d) => d
    case CopyInto(_, d) => d
    case CopyTo(_, d) => d
  }

  /** `base` followed by the separator starts `p`: `p` lies below `base`. */
  predicate Below(p: string, base: string) {
    |base| < |p| && p[..|base|] == base && p[|base|] == '/'
  }

  lemma BelowJoin(base: string, segment: string)
    ensures Below(Join(base, segment), base)
  {
  }

  lemma BelowTrans(p: string, q: string, base: string)
    requires Below(p, q) && Below(q, base)
    ensures Below(p, base)
  {
    assert p[..|base|] == p[..|q|][..|base|];
  }

  /** Staging writes nothing outside the run directory: every step but the
      creation of the run directory itself targets a path below it. */
  lemma {:induction false} StagingStaysInRunDir(exe: string, bsimOut: string, runDir: string, zephyrDir: string, tracing: bool)
    ensures var plan := StagingPlan(exe, bsimOut, runDir, zephyrDir, tracing);
      && plan[0] == MakeDir(runDir)
      && forall k :: 1 <= k < |plan| ==> Below(Destination(plan[k]), runDir)
  {
    var plan := StagingPlan(exe, bsimOut, runDir, zephyrDir, tracing);
    BelowJoin(runDir, "results");
    BelowJoin(runDir, "bin");
    BelowJoin(runDir, "lib");
    if tracing {
      BelowJoin(ResultsDir(runDir), "metadata");
      BelowTrans(Join(ResultsDir(runDir), "metadata"), ResultsDir(runDir), runDir);
      assert Destination(plan[5]) == Join(ResultsDir(runDir), "metadata");
    }
  }

  // --------------------------------------------------------- common arguments

  function TraceArg(results: string): string {
    "--trace-file=" + results + "/trace_data"
  }

  function FlashAppArg(results: string): string { "--flash_app_file=" + results + "/flash_app.bin" }
  function FlashNetArg(results: string): string { "--flash_net_file=" + results + "/flash_net.bin" }
  function FlashFileArg(results: string): string { "--flash_file=" + results + "/flash.bin" }

  /** The flash argument text: two files for the dual-domain board, one otherwise. */
  function FlashArg(results: string, dual: bool): string {
    if dual then FlashAppArg(results) + " " + FlashNetArg(results) else FlashFileArg(results)
  }

  function MroArg(): string {
    "--mro=" + IntToString(HandbrakeInterval)
  }

  /** The arguments every simulated device of the application receives, as words. */
  function CommonArgWords(results: string, tracing: bool, dual: bool, realTime: bool): seq<string> {
    (if tracing then [TraceArg(results)] else [])
    + (if dual then [FlashAppArg(results), FlashNetArg(results)] else [FlashFileArg(results)])
    + (if realTime then [MroArg()] else [])
  }

  /** The common-argument text: each word preceded by one space. */
  function CommonArgs(results: string, tracing: bool, dual: bool, realTime: bool): string {
    " " + JoinSpace(CommonArgWords(results, tracing, dual, realTime))
  }

  /** One space-led word before a space-led join is the join of both. */
  lemma SpacedPrepend(w: string, ws: seq<string>)
    requires ws != []
    ensures " " + w + (" " + JoinSpace(ws)) == " " + JoinSpace([w] + ws)
  {
    JoinSpaceAppend([w], ws);
    assert JoinSpace([w]) == w;
  }

  /** One space-led word after a space-led join is the join of both. */
  lemma SpacedAppend(ws: seq<string>, w: string)
    requires ws != []
    ensures " " + JoinSpace(ws) + (" " + w) == " " + JoinSpace(ws + [w])
  {
    JoinSpaceAppend(ws, [w]);
    assert JoinSpace([w]) == w;
  }

  lemma JoinPair(a: string, b: string)
    ensures JoinSpace([a, b]) == a + " " + b
  {
    assert [a, b][1..] == [b];
  }

  /** Appending ` <word>` for an optional first word, a flash text of one or
      two words and an optional last word gives the words joined by spaces,
      after one leading space. */
  lemma AppendedWords(tr: string, fa: string, fn: string, ff: string, last: string,
                      tracing: bool, dual: bool, realTime: bool)
    ensures (if tracing then " " + tr else "") + " " + (if dual then fa + " " + fn else ff)
            + (if realTime then " " + last else "")
         == " " + JoinSpace((if tracing then [tr] else []) + (if dual then [fa, fn] else [ff])
                            + (if realTime then [last] else []))
  {
    var t: seq<string> := if tracing then [tr] else [];
    var f: seq<string> := if dual then [fa, fn] else [ff];
    var m: seq<string> := if realTime then [last] else [];
    var flash := if dual then fa + " " + fn else ff;
    var head := if tracing then " " + tr else "";
    var tail := if realTime then " " + last else "";
    if dual {
      JoinPair(fa, fn);
    }
    assert JoinSpace(f) == flash;
    var tf := t + f;
    if tracing {
      SpacedPrepend(tr, f);
      assert head + " " + flash == " " + JoinSpace(tf);
    } else {
      assert tf == f;
      assert head + " " + flash == " " + JoinSpace(tf);
    }
    if realTime {
      SpacedAppend(tf, last);
    } else {
      assert tf + m == tf;
    }
    assert head + " " + flash + tail == " " + JoinSpace(tf + m);
  }

  /** Appending ` <arg>` piece by piece (trace file, flash text, resync
      offset) produces exactly the common-argument text. */
  lemma AppendedCommonArgs(results: string, tracing: bool, dual: bool, realTime: bool, built: string)
    requires built == (if tracing then " " + TraceArg(results) else "") + " " + FlashArg(results, dual)
                      + (if realTime then " " + MroArg() else "")
    ensures built == CommonArgs(results, tracing, dual, realTime)
  {
    AppendedWords(TraceArg(results), FlashAppArg(results), FlashNetArg(results), FlashFileArg(results), MroArg(),
                  tracing, dual, realTime);
  }

  /** An option glued to a path and a suffix is one word when none of the three
      holds whitespace. */
  lemma {:induction false} GluedArgIsToken(option: string, path: string, suffix: string)
    requires option != [] && NoSpace(option) && NoSpace(path) && NoSpace(suffix)
    ensures IsToken(option + path + suffix)
  {
    NoSpaceConcat(option, path);
    NoSpaceConcat(option + path, suffix);
  }

  /* The option and suffix literals of each file argument are free of
     whitespace. The solver checks a literal one character at a time; one
     argument's pair per lemma stays within the resource limit. */
  lemma TraceLiteralsHaveNoSpace()
    ensures NoSpace("--trace-file=") && NoSpace("/trace_data")
  {
  }

  lemma FlashAppLiteralsHaveNoSpace()
    ensures NoSpace("--flash_app_file=") && NoSpace("/flash_app.bin")
  {
  }

  lemma FlashNetLiteralsHaveNoSpace()
    ensures NoSpace("--flash_net_file=") && NoSpace("/flash_net.bin")
  {
  }

  lemma FlashFileLiteralsHaveNoSpace()
    ensures NoSpace("--flash_file=") && NoSpace("/flash.bin")
  {
  }

  lemma {:induction false} MroArgIsToken()
    ensures IsToken(MroArg())
  {
    assert NoSpace("--mro=");
    NoSpaceConcat("--mro=", IntToString(HandbrakeInterval));
  }

  /** With a separator-free results path, every common argument is a single word. */
  lemma {:induction false} CommonArgWordsAreTokens(results: string, tracing: bool, dual: bool, realTime: bool)
    requires NoSpace(results)
    ensures forall i :: 0 <= i < |CommonArgWords(results, tracing, dual, realTime)| ==>
      IsToken(CommonArgWords(results, tracing, dual, realTime)[i])
  {
    TraceLiteralsHaveNoSpace();
    FlashAppLiteralsHaveNoSpace();
    FlashNetLiteralsHaveNoSpace();
    FlashFileLiteralsHaveNoSpace();
    GluedArgIsToken("--trace-file=", results, "/trace_data");
    GluedArgIsToken("--flash_app_file=", results, "/flash_app.bin");
    GluedArgIsToken("--flash_net_file=", results, "/flash_net.bin");
    GluedArgIsToken("--flash_file=", results, "/flash.bin");
    MroArgIsToken();
  }

  /** `str.split()` of the common-argument text gives the argument words back,
      so the devices see exactly these arguments. */
  lemma {:induction false} CommonArgsSplit(results: string, tracing: bool, dual: bool, realTime: bool)
    requires NoSpace(results)
    ensures SplitWhitespace(CommonArgs(results, tracing, dual, realTime)) == CommonArgWords(results, tracing, dual, realTime)
  {
    var ws := CommonArgWords(results, tracing, dual, realTime);
    CommonArgWordsAreTokens(results, tracing, dual, realTime);
    SplitAfterSpace(" ", JoinSpace(ws));
    SplitJoinSpace(ws);
  }

  /** The resync offset is passed exactly in real time. */
  lemma MroIffRealTime(results: string, tracing: bool, dual: bool, realTime: bool)
    ensures MroArg() in CommonArgWords(results, tracing, dual, realTime) <==> realTime
  {
    var mro := MroArg();
    assert mro[2] == 'm';
    assert TraceArg(results)[2] == 't';
    assert FlashAppArg(results)[2] == 'f';
    assert FlashNetArg(results)[2] == 'f';
    assert FlashFileArg(results)[2] == 'f';
  }

  /** The trace file is passed exactly when tracing, and it lies in the results directory. */
  lemma TraceIffTracing(results: string, tracing: bool, dual: bool, realTime: bool)
    ensures TraceArg(results) in CommonArgWords(results, tracing, dual, realTime) <==> tracing
    ensures TraceArg(results) == "--trace-file=" + Join(results, "trace_data")
  {
    var tr := TraceArg(results);
    assert tr[2] == 't';
    assert MroArg()[2] == 'm';
    assert FlashAppArg(results)[2] == 'f';
    assert FlashNetArg(results)[2] == 'f';
    assert FlashFileArg(results)[2] == 'f';
  }

  /** The two flash forms exclude each other: the dual-domain board gets the
      app and net flash files and not the single one, every other board the
      single one and neither of the two. */
  lemma FlashFormsExclusive(results: string, tracing: bool, dual: bool, realTime: bool)
    ensures var ws := CommonArgWords(results, tracing, dual, realTime);
      && (FlashAppArg(results) in ws <==> dual)
      && (FlashNetArg(results) in ws <==> dual)
      && (FlashFileArg(results) in ws <==> !dual)
  {
    assert TraceArg(results)[2] == 't';
    assert MroArg()[2] == 'm';
    assert FlashAppArg(results)[8] == 'a';
    assert FlashNetArg(results)[8] == 'n';
    assert FlashFileArg(results)[8] == 'f';
  }

  // ----------------------------------------------------------------- launches

  const GdbUartAttachCmd: string :=
    "echo App\\ halted\\ until\\ UART\\ attached!\\ Use:\\ gale\\ monitor\\ --port\\ %s"

  const MonitorUartAttachCmd: string := "gale monitor --port %s --new-terminal"

  /** Under gdb the UARTs 0 and 1 wait for a terminal the user attaches;
      otherwise UARTs 1 and 4 open a monitor terminal each. */
  function UartArgs(front: AppFrontEnd): string {
    match front
    case UnderGdb(_, _) =>
      "--uart_pty_wait" + " --uart0_pty_attach_cmd=\"" + GdbUartAttachCmd + "\""
      + " --uart1_pty_attach_cmd=\"" + GdbUartAttachCmd + "\""
    case Direct =>
      "--uart_pty_wait" + " --uart1_pty_attach_cmd=\"" + MonitorUartAttachCmd + "\""
      + " --uart4_pty_attach_cmd=\"" + MonitorUartAttachCmd + "\""
  }

  /** The device-specific part of a command: simulation id and device number. */
  function DeviceTag(sim: string, device: nat): string {
    " -s=" + sim + " -d=" + IntToString(device) + " "
  }

  /** What precedes the device tag in the application's command: the staged
      executable, run by gdb in its text UI when debugging. */
  function AppPrefix(front: AppFrontEnd, finalExe: string): string {
    match front
    case UnderGdb(gdb, gdbinit) => gdb + " --tui -x " + gdbinit + " --args " + finalExe
    case Direct => finalExe
  }

  /** The application's command from its parts. */
  function AppLine(prefix: string, sim: string, device: nat, uart: string, common: string): string {
    prefix + DeviceTag(sim, device) + uart + " " + common
  }

  /** The command that starts the application device. */
  function AppCommand(front: AppFrontEnd, finalExe: string, sim: string, device: nat, common: string): string {
    AppLine(AppPrefix(front, finalExe), sim, device, UartArgs(front), common)
  }

  /** Under gdb the application gets a terminal of its own; otherwise it runs in the background. */
  function AppMode(front: AppFrontEnd): Util.CmdMode {
    if front.UnderGdb? then Util.SpawnNewTerminal else Util.Background
  }

  function HandbrakeCommand(sim: string, device: nat): string {
    "./bs_device_handbrake" + DeviceTag(sim, device) + "--pp=" + IntToString(HandbrakeInterval)
  }

  function PhyCommand(sim: string, devices: nat): string {
    "./bs_2G4_phy_v1 -s=" + sim + " -D=" + IntToString(devices)
  }

  /** The launches of the run task, in order: the application as device 0, the
      handbrake as device 1 in real time, and the PHY told how many devices
      there are. All run in the staged binary directory. */
  function LaunchPlan(front: AppFrontEnd, finalExe: string, sim: string, binDir: string,
                      common: string, realTime: bool): seq<Launch> {
    [Util.Call(AppCommand(front, finalExe, sim, 0, common), AppMode(front), binDir)]
    + (if realTime then [Util.Call(HandbrakeCommand(sim, 1), Util.Background, binDir)] else [])
    + [Util.Call(PhyCommand(sim, if realTime then 2 else 1), Util.Foreground, binDir)]
  }

  /** The plan, launch by launch. */
  lemma LaunchPlanShape(front: AppFrontEnd, finalExe: string, sim: string, binDir: string,
                        common: string, realTime: bool)
    ensures var plan := LaunchPlan(front, finalExe, sim, binDir, common, realTime);
      && |plan| == (if realTime then 3 else 2)
      && plan[0] == Util.Call(AppCommand(front, finalExe, sim, 0, common), AppMode(front), binDir)
      && (realTime ==> plan[1] == Util.Call(HandbrakeCommand(sim, 1), Util.Background, binDir))
      && plan[|plan| - 1] == Util.Call(PhyCommand(sim, |plan| - 1), Util.Foreground, binDir)
  {
    var app := Util.Call(AppCommand(front, finalExe, sim, 0, common), AppMode(front), binDir);
    var hb := Util.Call(HandbrakeCommand(sim, 1), Util.Background, binDir);
    if realTime {
      var phy := Util.Call(PhyCommand(sim, 2), Util.Foreground, binDir);
      assert LaunchPlan(front, finalExe, sim, binDir, common, realTime) == [app, hb, phy];
    } else {
      var phy := Util.Call(PhyCommand(sim, 1), Util.Foreground, binDir);
      assert LaunchPlan(front, finalExe, sim, binDir, common, realTime) == [app, phy];
    }
  }

  lemma InfixOfConcat(a: string, sub: string, b: string)
    ensures IsInfix(sub, a + sub + b)
  {
    assert InfixAt(sub, a + sub + b, |a|);
  }

  lemma AppTagged(front: AppFrontEnd, finalExe: string, sim: string, common: string)
    ensures IsInfix(DeviceTag(sim, 0), AppCommand(front, finalExe, sim, 0, common))
  {
    InfixOfConcat(AppPrefix(front, finalExe), DeviceTag(sim, 0), UartArgs(front) + " " + common);
    AppendAssoc(AppPrefix(front, finalExe) + DeviceTag(sim, 0), UartArgs(front), " ");
    AppendAssoc(AppPrefix(front, finalExe) + DeviceTag(sim, 0), UartArgs(front) + " ", common);
  }

  lemma HandbrakeTagged(sim: string, device: nat)
    ensures IsInfix(DeviceTag(sim, device), HandbrakeCommand(sim, device))
  {
    var rest := "--pp=" + IntToString(HandbrakeInterval);
    assert HandbrakeCommand(sim, device) == "./bs_device_handbrake" + DeviceTag(sim, device) + rest;
    InfixOfConcat("./bs_device_handbrake", DeviceTag(sim, device), rest);
  }

  lemma PhyNamesSim(sim: string, devices: nat)
    ensures IsInfix(" -s=" + sim + " ", PhyCommand(sim, devices) + " ")
  {
    var rest := "-D=" + IntToString(devices) + " ";
    assert PhyCommand(sim, devices) + " " == "./bs_2G4_phy_v1" + (" -s=" + sim + " ") + rest;
    InfixOfConcat("./bs_2G4_phy_v1", " -s=" + sim + " ", rest);
  }

  /** Every launch before the last one is a simulated device numbered by its
      position; the last is the PHY, told the number of devices started before
      it and run in the foreground, so the run task waits for the simulation. All
      launches share the working directory and the simulation id. */
  lemma LaunchPlanNumbersDevices(front: AppFrontEnd, finalExe: string, sim: string, binDir: string,
                                 common: string, realTime: bool)
    ensures var plan := LaunchPlan(front, finalExe, sim, binDir, common, realTime);
      && |plan| == (if realTime then 3 else 2)
      && (forall k :: 0 <= k < |plan| - 1 ==> IsInfix(DeviceTag(sim, k), plan[k].cmd))
      && plan[|plan| - 1] == Util.Call(PhyCommand(sim, |plan| - 1), Util.Foreground, binDir)
      && (forall k :: 0 <= k < |plan| ==> plan[k].cwd == binDir && IsInfix(" -s=" + sim + " ", plan[k].cmd + " "))
  {
    var plan := LaunchPlan(front, finalExe, sim, binDir, common, realTime);
    var last := |plan| - 1;
    AppTagged(front, finalExe, sim, common);
    SimIdInDeviceTag(sim, 0, plan[0].cmd);
    PhyNamesSim(sim, last);
    if realTime {
      HandbrakeTagged(sim, 1);
      SimIdInDeviceTag(sim, 1, plan[1].cmd);
    }
    forall k | 0 <= k < |plan|
      ensures plan[k].cwd == binDir && IsInfix(" -s=" + sim + " ", plan[k].cmd + " ")
    {
      assert k == 0 || k == last || (realTime && k == 1);
    }
  }

  /** Under gdb the application gets a terminal of its own, otherwise it runs
      in the background like the handbrake; only the PHY holds the run task's
      terminal. */
  lemma LaunchModes(front: AppFrontEnd, finalExe: string, sim: string, binDir: string,
                    common: string, realTime: bool)
    ensures var plan := LaunchPlan(front, finalExe, sim, binDir, common, realTime);
      && plan[0].mode == (if front.UnderGdb? then Util.SpawnNewTerminal else Util.Background)
      && (realTime ==> plan[1] == Util.Call(HandbrakeCommand(sim, 1), Util.Background, binDir))
      && (forall k :: 0 <= k < |plan| - 1 ==> plan[k].mode != Util.Foreground)
  {
    var plan := LaunchPlan(front, finalExe, sim, binDir, common, realTime);
    assert plan[0].mode == AppMode(front);
  }

  /** The common arguments reach the application device alone: two plans
      that differ only in them agree on every later launch, and their
      application commands differ. */
  lemma {:induction false} OnlyAppGetsCommonArgs(front: AppFrontEnd, finalExe: string, sim: string, binDir: string,
                                                 c1: string, c2: string, realTime: bool)
    ensures var p1 := LaunchPlan(front, finalExe, sim, binDir, c1, realTime);
      var p2 := LaunchPlan(front, finalExe, sim, binDir, c2, realTime);
      && |p1| == |p2|
      && (forall k :: 1 <= k < |p1| ==> p1[k] == p2[k])
      && (p1[0].cmd == p2[0].cmd <==> c1 == c2)
  {
    var a1 := AppCommand(front, finalExe, sim, 0, c1);
    var a2 := AppCommand(front, finalExe, sim, 0, c2);
    var pre := AppPrefix(front, finalExe) + DeviceTag(sim, 0) + UartArgs(front) + " ";
    assert a1 == pre + c1 && a2 == pre + c2;
    if a1 == a2 {
      assert c1 == a1[|pre|..] == a2[|pre|..] == c2;
    }
  }

  /** A command holding a device tag names the simulation id as a separate word. */
  lemma SimIdInDeviceTag(sim: string, device: nat, cmd: string)
    requires IsInfix(DeviceTag(sim, device), cmd)
    ensures IsInfix(" -s=" + sim + " ", cmd + " ")
  {
    var i :| InfixAt(DeviceTag(sim, device), cmd, i);
    var sub := " -s=" + sim + " ";
    assert DeviceTag(sim, device)[..|sub|] == sub;
    assert (cmd + " ")[i..i + |sub|] == cmd[i..i + |DeviceTag(sim, device)|][..|sub|];
    assert InfixAt(sub, cmd + " ", i);
  }

  /** The device numbers printed into the commands read back as the counts the
      task keeps: the PHY's `-D=` is the number of devices launched before it. */
  lemma PhyReadsDeviceCount(front: AppFrontEnd, finalExe: string, sim: string, binDir: string,
                            common: string, realTime: bool)
    ensures var plan := LaunchPlan(front, finalExe, sim, binDir, common, realTime);
      DecimalValue(IntToString(|plan| - 1)) == |[plan[0]] + (if realTime then [plan[1]] else [])|
  {
    var plan := LaunchPlan(front, finalExe, sim, binDir, common, realTime);
    DecimalValueOfNat(|plan| - 1);
  }

  // --------------------------------------------------------------------- task

  /** `after` is `before` followed by the commands of a prefix of `plan`, in order. */
  ghost predicate RanInOrder(before: seq<Util.Cmd>, after: seq<Util.Cmd>, plan: seq<Launch>)
  {
    && |before| <= |after| <= |before| + |plan|
    && after[..|before|] == before
    && forall k :: |before| <= k < |after| ==> after[k].cmd == plan[k - |before|].cmd
  }

  lemma RanNothingYet(before: seq<Util.Cmd>, plan: seq<Launch>)
    ensures RanInOrder(before, before, plan)
  {
  }

  /** One more command, the next one of the plan, keeps the order. */
  lemma RanOneMore(before: seq<Util.Cmd>, mid: seq<Util.Cmd>, after: seq<Util.Cmd>, plan: seq<Launch>)
    requires RanInOrder(before, mid, plan)
    requires |after| == |mid| + 1 && after[..|mid|] == mid && |mid| - |before| < |plan|
    requires after[|mid|].cmd == plan[|mid| - |before|].cmd
    ensures RanInOrder(before, after, plan)
  {
    assert after[..|before|] == mid[..|before|];
    forall k | |before| <= k < |after|
      ensures after[k].cmd == plan[k - |before|].cmd
    {
      if k < |mid| {
        assert after[k] == mid[k];
      }
    }
  }

  /** `after` is `before` followed by a prefix of `plan`: the calls made so
      far are the planned ones, with their modes and working directories. */
  ghost predicate CalledInOrder(before: seq<Util.Call>, after: seq<Util.Call>, plan: seq<Launch>)
  {
    |before| <= |after| <= |before| + |plan| && after == before + plan[..|after| - |before|]
  }

  /** One more call, the next one of the plan, keeps the order. */
  lemma CalledOneMore(before: seq<Util.Call>, mid: seq<Util.Call>, plan: seq<Launch>)
    requires CalledInOrder(before, mid, plan) && |mid| - |before| < |plan|
    ensures CalledInOrder(before, mid + [plan[|mid| - |before|]], plan)
  {
    var k := |mid| - |before|;
    assert plan[..k + 1] == plan[..k] + [plan[k]];
  }

  /** The file system once staging has created the run directories. */
  function StagedDirs(fs: FileSystem, runDir: string): (ready: FileSystem)
    ensures RunBinDir(runDir) in ready.dirs && ready.files == fs.files
  {
    FileSystem(fs.dirs + {runDir, ResultsDir(runDir), RunBinDir(runDir), RunLibDir(runDir)}, fs.files)
  }

  /** How the application is started: under gdb when asked for and the
      cache names a debugger. */
  function FrontEnd(gdb: bool, gdbPath: Result<string>, sharedDir: string): AppFrontEnd {
    if gdb && gdbPath.Ok? then UnderGdb(gdbPath.value, GdbInit(sharedDir)) else Direct
  }

  /** The launches the run task plans once it has staged `runDir`. */
  function RunPlan(gdb: bool, gdbPath: Result<string>, sharedDir: string, runDir: string, exe: string,
                   sim: string, dual: bool, tracing: bool, realTime: bool): (plan: seq<Launch>)
    ensures |plan| == (if realTime then 3 else 2)
  {
    LaunchPlan(FrontEnd(gdb, gdbPath, sharedDir), Join(RunBinDir(runDir), Basename(exe)), sim, RunBinDir(runDir),
               CommonArgs(ResultsDir(runDir), tracing, dual, realTime), realTime)
  }

  /** The planned launches, as `LaunchDevices` performs them. */
  lemma RunPlanShape(gdb: bool, gdbPath: Result<string>, sharedDir: string, runDir: string, exe: string,
                     sim: string, dual: bool, tracing: bool, realTime: bool)
    ensures var plan := RunPlan(gdb, gdbPath, sharedDir, runDir, exe, sim, dual, tracing, realTime);
      var front := FrontEnd(gdb, gdbPath, sharedDir);
      && |plan| == (if realTime then 3 else 2)
      && plan[0] == Util.Call(AppLine(AppPrefix(front, Join(RunBinDir(runDir), Basename(exe))), sim, 0, UartArgs(front),
                                      CommonArgs(ResultsDir(runDir), tracing, dual, realTime)),
                              AppMode(front), RunBinDir(runDir))
      && (realTime ==> plan[1] == Util.Call(HandbrakeCommand(sim, 1), Util.Background, RunBinDir(runDir)))
      && plan[|plan| - 1] == Util.Call(PhyCommand(sim, |plan| - 1), Util.Foreground, RunBinDir(runDir))
  {
    LaunchPlanShape(FrontEnd(gdb, gdbPath, sharedDir), Join(RunBinDir(runDir), Basename(exe)), sim, RunBinDir(runDir),
                    CommonArgs(ResultsDir(runDir), tracing, dual, realTime), realTime);
  }

  /** The launches the run task plans for a build whose executable is `exe`. */
  ghost function TaskPlan(cache: BuildCache, exe: string, gdb: bool, realTime: bool, tracing: bool,
                          dualDomainBoard: Board, sharedDir: string): seq<Launch>
    reads cache.cmakeCache
  {
    RunPlan(gdb, cache.cmakeCache.Gdb(), sharedDir, RunDir(cache.target.parentProject.dir, cache.triplet), exe,
            cache.target.name, cache.board == dualDomainBoard, tracing, realTime)
  }

  /** `task_run_app_in_bsim`. Reads the executable's path (fatal when the
      cache lacks it, or when the file does not exist — before anything is
      created), reads the BabbleSim output path, stages the run directory,
      builds the common arguments and starts the application device, the
      handbrake in real time, and the PHY, counting devices as it goes.
      `dualDomainBoard` is the board that needs separate app and net flash
      files. A fatal launch ends the run task. */
  method RunAppInBsim(exec: Util.Executor, cache: BuildCache, gdb: bool, realTime: bool, tracing: bool,
                      dualDomainBoard: Board, sharedDir: string, zephyrDir: string, fs: FileSystem,
                      app: Util.Process, handbrake: Util.Process, phy: Util.Process)
    returns (outcome: Result<()>, staged: seq<Staging>)
    modifies exec
    ensures outcome.Ok? || outcome.Fatal?
    ensures |exec.history| >= |old(exec.history)|
    ensures exec.history[..|old(exec.history)|] == old(exec.history)
    ensures exec.topdir == old(exec.topdir)
    ensures var exe := old(cache.cmakeCache.ExePath());
      !exe.Ok? ==> outcome == Fatal(exe.message) && staged == [] && exec.history == old(exec.history)
    ensures var exe := old(cache.cmakeCache.ExePath());
      exe.Ok? && !fs.Exists(exe.value) ==>
        && outcome == Fatal("Output binary '" + exe.value + "' does not exist; use build first.")
        && staged == [] && exec.history == old(exec.history)
    ensures var exe := old(cache.cmakeCache.ExePath());
      var out := old(cache.cmakeCache.BsimOutPath());
      exe.Ok? && fs.Exists(exe.value) && !out.Ok? ==>
        outcome == Fatal(out.message) && staged == [] && exec.history == old(exec.history)
    ensures var exe := old(cache.cmakeCache.ExePath());
      var out := old(cache.cmakeCache.BsimOutPath());
      var runDir := RunDir(cache.target.parentProject.dir, cache.triplet);
      exe.Ok? && fs.Exists(exe.value) && out.Ok? ==>
        staged == StagingPlan(exe.value, out.value, runDir, zephyrDir, tracing)
    ensures gdb && !old(cache.cmakeCache.Gdb()).Ok? && staged != [] ==>
      outcome == Fatal(old(cache.cmakeCache.Gdb()).message) && exec.history == old(exec.history)
    ensures staged == [] || (gdb && !old(cache.cmakeCache.Gdb()).Ok?) ==> exec.calls == old(exec.calls)
    ensures var exe := old(cache.cmakeCache.ExePath());
      exe.Ok? && staged != [] ==>
        StartedAsPlanned(old(exec.history), exec.history, old(exec.calls), exec.calls, outcome,
                         old(TaskPlan(cache, exe.value, gdb, realTime, tracing, dualDomainBoard, sharedDir)),
                         gdb && !old(cache.cmakeCache.Gdb()).Ok?, gdb, app, phy,
                         StagedDirs(fs, RunDir(cache.target.parentProject.dir, cache.triplet)))
  {
    var exe := cache.cmakeCache.ExePath();
    if !exe.Ok? {
      return Fatal(exe.message), [];
    }
    if !fs.Exists(exe.value) {
      return Fatal("Output binary '" + exe.value + "' does not exist; use build first."), [];
    }
    var bsimOut := cache.cmakeCache.BsimOutPath();
    if !bsimOut.Ok? {
      return Fatal(bsimOut.message), [];
    }
    var runDir := RunDir(cache.target.parentProject.dir, cache.triplet);
    // Steps 1 to 3: the directories, the BabbleSim tree, the executable and
    // the trace metadata, recorded in the order the run task performs them.
    staged := StagingPlan(exe.value, bsimOut.value, runDir, zephyrDir, tracing);
    // The debugger is looked up only under gdb; the lookup itself has no effect.
    var gdbPath := cache.cmakeCache.Gdb();
    outcome := StartSimulation(exec, gdb, gdbPath, sharedDir, runDir, exe.value, cache.target.name,
                               cache.board == dualDomainBoard, tracing, realTime, fs, app, handbrake, phy);
  }

  /** The run task once the run directory is staged: the common arguments, the
      choice between gdb and a direct start (fatal when gdb is asked for and
      the cache names no debugger), then the launches. */
  method StartSimulation(exec: Util.Executor, gdb: bool, gdbPath: Result<string>, sharedDir: string,
                         runDir: string, exe: string, sim: string, dual: bool, tracing: bool, realTime: bool,
                         fs: FileSystem, app: Util.Process, handbrake: Util.Process, phy: Util.Process)
    returns (outcome: Result<()>)
    requires gdbPath.Ok? || gdbPath.Fatal?
    modifies exec
    ensures outcome.Ok? || outcome.Fatal?
    ensures exec.topdir == old(exec.topdir)
    ensures gdb && !gdbPath.Ok? ==>
      outcome == Fatal(gdbPath.message) && exec.history == old(exec.history) && exec.calls == old(exec.calls)
    ensures StartedAsPlanned(old(exec.history), exec.history, old(exec.calls), exec.calls, outcome,
                             RunPlan(gdb, gdbPath, sharedDir, runDir, exe, sim, dual, tracing, realTime),
                             gdb && !gdbPath.Ok?, gdb, app, phy, StagedDirs(fs, runDir))
  {
    var binDir, results := RunBinDir(runDir), ResultsDir(runDir);
    var finalExe := Join(binDir, Basename(exe));
    var commonArgs := BuildCommonArgs(results, tracing, dual, realTime);
    ghost var plan := RunPlan(gdb, gdbPath, sharedDir, runDir, exe, sim, dual, tracing, realTime);
    if gdb && !gdbPath.Ok? {
      RanNothingYet(exec.history, plan);
      assert plan[..0] == [] && exec.calls + [] == exec.calls;
      return Fatal(gdbPath.message);
    }
    var front := FrontEnd(gdb, gdbPath, sharedDir);
    // Staging is assumed to succeed: afterwards the run directories exist.
    var ready := StagedDirs(fs, runDir);
    RunPlanShape(gdb, gdbPath, sharedDir, runDir, exe, sim, dual, tracing, realTime);
    outcome := LaunchDevices(exec, AppPrefix(front, finalExe), UartArgs(front), AppMode(front), sim, binDir,
                             commonArgs, realTime, ready, app, handbrake, phy, plan);
  }

  /** Step 3 (tracing), the flash argument and the resync offset of the run
      task: the common arguments, appended one ` <arg>` at a time. */
  method BuildCommonArgs(results: string, tracing: bool, dual: bool, realTime: bool) returns (commonArgs: string)
    ensures commonArgs == CommonArgs(results, tracing, dual, realTime)
  {
    ghost var head := if tracing then " " + TraceArg(results) else "";
    ghost var tail := if realTime then " " + MroArg() else "";
    commonArgs := "";
    if tracing {
      commonArgs := commonArgs + " " + TraceArg(results);
      assert commonArgs == " " + TraceArg(results);
    }
    assert commonArgs == head;
    commonArgs := commonArgs + " " + FlashArg(results, dual);
    ghost var flashed := commonArgs;
    if realTime {
      commonArgs := commonArgs + " " + MroArg();
      AppendAssoc(flashed, " ", MroArg());
    } else {
      assert commonArgs == flashed + tail;
    }
    AppendedCommonArgs(results, tracing, dual, realTime, commonArgs);
  }

  /** `run_command` with an explicit working directory and the default
      `fatal`: exactly one handle, for `cmd`, joins the history, the call is
      made with the given mode in the given directory, and it either returns
      the handle or ends the tool. */
  method RunInDir(exec: Util.Executor, cmd: string, mode: Util.CmdMode, dir: string,
                  p: Util.Process, fs: FileSystem) returns (r: Util.RunOutcome)
    requires mode != Util.Replace
    modifies exec
    ensures exec.topdir == old(exec.topdir)
    ensures |exec.history| == |old(exec.history)| + 1 && exec.history[..|old(exec.history)|] == old(exec.history)
    ensures exec.history[|old(exec.history)|].cmd == cmd
    ensures exec.calls == old(exec.calls) + [Util.Call(cmd, mode, dir)]
    ensures r.Returned? || r.Terminated?
    ensures Util.EndOf(r) == Util.CallEnd(Util.Call(cmd, mode, dir), p, fs, true)
  {
    r := exec.RunCommand(cmd, mode, Some(dir), true, p, p, fs);
  }

  /** Steps 4 to 6 of the run task: the application device, the handbrake in
      real time and the PHY, each numbered by a running device count and run
      through `run_command` with the default `fatal`; a launch that ends the
      program ends the sequence. `plan` is the run task's launch plan, given by
      its launches. */
  method LaunchDevices(exec: Util.Executor, appPrefix: string, uartArgs: string, appMode: Util.CmdMode,
                       sim: string, binDir: string,
                       commonArgs: string, realTime: bool, ready: FileSystem,
                       app: Util.Process, handbrake: Util.Process, phy: Util.Process,
                       ghost plan: seq<Launch>)
    returns (outcome: Result<()>)
    requires appMode != Util.Replace
    requires |plan| == (if realTime then 3 else 2)
    requires plan[0] == Util.Call(AppLine(appPrefix, sim, 0, uartArgs, commonArgs), appMode, binDir)
    requires realTime ==> plan[1] == Util.Call(HandbrakeCommand(sim, 1), Util.Background, binDir)
    requires plan[|plan| - 1] == Util.Call(PhyCommand(sim, |plan| - 1), Util.Foreground, binDir)
    modifies exec
    ensures outcome.Ok? || outcome.Fatal?
    ensures exec.topdir == old(exec.topdir)
    ensures |old(exec.history)| < |exec.history|
    ensures RanInOrder(old(exec.history), exec.history, plan)
    ensures outcome.Ok? ==> |exec.history| == |old(exec.history)| + |plan|
    ensures CalledInOrder(old(exec.calls), exec.calls, plan)
    ensures outcome.Ok? ==> exec.calls == old(exec.calls) + plan
    ensures LaunchedAsPlanned(old(exec.calls), exec.calls, outcome, plan, app, phy, ready)
  {
    ghost var h0, c0 := exec.history, exec.calls;
    RanNothingYet(h0, plan);
    assert plan[..0] == [] && c0 + [] == c0;
    var devices: nat := 0;

    var appCmd := AppLine(appPrefix, sim, devices, uartArgs, commonArgs);
    devices := devices + 1;
    var r := LaunchNext(exec, appCmd, appMode, binDir, app, ready, h0, c0, plan);
    if r.Terminated? {
      assert plan[..1] == [plan[0]];
      return Fatal(r.message);
    }
    assert Util.CallEnd(plan[0], app, ready, true).None?;

    if realTime {
      var hbCmd := HandbrakeCommand(sim, devices);
      devices := devices + 1;
      r := LaunchNext(exec, hbCmd, Util.Background, binDir, handbrake, ready, h0, c0, plan);
    }

    var phyCmd := PhyCommand(sim, devices);
    r := LaunchNext(exec, phyCmd, Util.Foreground, binDir, phy, ready, h0, c0, plan);
    assert exec.calls == c0 + plan by {
      assert |exec.calls| - |c0| == |plan| && plan[..|plan|] == plan;
    }
    if r.Terminated? {
      return Fatal(r.message);
    }
    outcome := Ok(());
  }

  /** How the launches of `plan` went, `before` and `after` being the calls
      made before and after them: the handbrake runs in the background and
      never ends the tool; an application that ends it is the only call made;
      otherwise every planned call is made, and the PHY decides the outcome. */
  ghost predicate LaunchedAsPlanned(before: seq<Launch>, after: seq<Launch>, outcome: Result<()>,
                                    plan: seq<Launch>, app: Util.Process, phy: Util.Process, fs: FileSystem)
    requires |plan| >= 2
  {
    var appEnd := Util.CallEnd(plan[0], app, fs, true);
    var phyEnd := Util.CallEnd(plan[|plan| - 1], phy, fs, true);
    if appEnd.Some? then outcome == Fatal(appEnd.value) && after == before + [plan[0]]
    else after == before + plan && outcome == (if phyEnd.Some? then Fatal(phyEnd.value) else Ok(()))
  }

  /** What starting the simulation leaves, `h0`/`c0` and `h1`/`c1` being the
      handles and calls before and after: the commands and calls made follow
      `plan` in order, all of it on success; unless the missing debugger
      stopped it first (`gdbFails`), the launches went as
      `LaunchedAsPlanned` says; and without gdb every planned call is made. */
  ghost predicate StartedAsPlanned(h0: seq<Util.Cmd>, h1: seq<Util.Cmd>, c0: seq<Launch>, c1: seq<Launch>,
                                   outcome: Result<()>, plan: seq<Launch>, gdbFails: bool, gdb: bool,
                                   app: Util.Process, phy: Util.Process, fs: FileSystem)
    requires |plan| >= 2
  {
    && RanInOrder(h0, h1, plan)
    && (outcome.Ok? ==> |h1| == |h0| + |plan|)
    && CalledInOrder(c0, c1, plan)
    && (outcome.Ok? ==> c1 == c0 + plan)
    && (!gdbFails ==> LaunchedAsPlanned(c0, c1, outcome, plan, app, phy, fs))
    && (!gdb ==> c1 == c0 + plan)
  }

  /** The next launch of `plan`, through `run_command` in `dir`: it extends
      both the handles and the calls made by one, in the plan's order. */
  method LaunchNext(exec: Util.Executor, cmd: string, mode: Util.CmdMode, dir: string,
                    p: Util.Process, ready: FileSystem,
                    ghost h0: seq<Util.Cmd>, ghost c0: seq<Util.Call>, ghost plan: seq<Launch>)
    returns (r: Util.RunOutcome)
    requires mode != Util.Replace
    requires RanInOrder(h0, exec.history, plan) && CalledInOrder(c0, exec.calls, plan)
    requires |exec.history| - |h0| == |exec.calls| - |c0| < |plan|
    requires plan[|exec.calls| - |c0|] == Util.Call(cmd, mode, dir)
    modifies exec
    ensures exec.topdir == old(exec.topdir)
    ensures RanInOrder(h0, exec.history, plan) && CalledInOrder(c0, exec.calls, plan)
    ensures |exec.history| == |old(exec.history)| + 1 && |exec.calls| == |old(exec.calls)| + 1
    ensures r.Returned? || r.Terminated?
    ensures Util.EndOf(r) == Util.CallEnd(Util.Call(cmd, mode, dir), p, ready, true)
  {
    ghost var h, c := exec.history, exec.calls;
    r := RunInDir(exec, cmd, mode, dir, p, ready);
    RanOneMore(h0, h, exec.history, plan);
    CalledOneMore(c0, c, plan);
  }
}
