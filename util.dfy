/** `gale.util`: the command executor. Every call of `run_command` records a
    `Cmd` handle in a history that only grows; the execution mode decides
    whether the call waits for the worker that runs the process; a worker turns
    the process's exit code and output into the handle's `code` and `stdout`,
    or ends the tool; on an interrupt, `_cleanup` walks the history newest
    first. Processes are abstract: a `Process` value says what the spawned
    command would do. */
module Util {
  import opened Common
  import opened Text

  /** The execution modes. `SpawnNewTerminal` is used by the BabbleSim task
      but has no branch of its own in `run_command`, which treats every mode
      other than the three it names like `CaptureResult`. */
  datatype CmdMode = Foreground | Background | CaptureResult | Replace | SpawnNewTerminal

  const SIGINT: int := 2
  const SIGTERM: int := 15

  /** What a spawned command does: the exit code and the text it writes if it
      runs to its end, whether it ends within the short wait of `_cleanup`,
      and whether it ends once sent SIGTERM. */
  datatype Process = Process(
    code: int, stdout: string, stderr: string,
    exitsWithinGrace: bool, exitsOnSigterm: bool)

  /** `cmd.proc` and its `poll()` status. */
  datatype ProcState = NotStarted | Running(exitsWithinGrace: bool, exitsOnSigterm: bool) | Finished

  /** How the working directory fares when the process is started in it. */
  datatype CwdCheck = CwdOk | CwdMissing | CwdNotADirectory

  function CheckCwd(fs: FileSystem, cwd: string): CwdCheck {
    if cwd in fs.dirs then CwdOk
    else if cwd in fs.files then CwdNotADirectory
    else CwdMissing
  }

  /** What a worker still has to do for a handle that was not joined. */
  datatype Work = Work(process: Process, captured: bool, cwd: string, cwdCheck: CwdCheck, fatal: bool)

  // --------------------------------------------------- exit classification

  predicate IsTerminationSignal(code: int) {
    code == -SIGINT || code == -SIGTERM
  }

  /** The worker's verdict on an ended process: the handle's new `code`, its
      new `stdout` (`None`: left as it was), whether a warning is logged, and
      the message with which the tool terminates, if it does. */
  datatype Verdict = Verdict(code: int, stdout: Option<string>, warned: bool, terminate: Option<string>)

  /** The worker's classification of an exit code (`out` and `err` are the
      captured texts, empty when nothing was captured). */
  function Classify(cmd: string, code: int, out: string, err: string, fatal: bool): (v: Verdict)
    ensures v.code == code
    ensures v.terminate.Some? <==> fatal && code != 0 && !IsTerminationSignal(code)
    ensures v.warned <==> IsTerminationSignal(code)
    ensures v.stdout.None? <==> IsTerminationSignal(code)
    ensures code == 0 ==> v.stdout == Some(if out == "" then "code 0" else Strip(out))
    ensures code != 0 && !IsTerminationSignal(code) ==>
      v.stdout == Some(if err == "" then "code " + IntToString(code) else Strip(err))
    ensures v.terminate.Some? ==> v.terminate.value == "Cmd `" + cmd + "` failed: " + v.stdout.value
  {
    if code == 0 then
      Verdict(code, Some(if out != "" then Strip(out) else "code 0"), false, None)
    else if code == -SIGINT || code == -SIGTERM then
      Verdict(code, None, true, None)
    else
      var text := if err != "" then Strip(err) else "code " + IntToString(code);
      Verdict(code, Some(text), false, if fatal then Some("Cmd `" + cmd + "` failed: " + text) else None)
  }

  /** Whatever the exit code, the text a worker stores in `stdout` has no
      whitespace at either end. */
  lemma ClassifiedOutputIsStripped(cmd: string, code: int, out: string, err: string, fatal: bool)
    ensures Classify(cmd, code, out, err, fatal).stdout.Some? ==>
      IsStripped(Classify(cmd, code, out, err, fatal).stdout.value)
  {
    var n := IntToString(code);
    var s := "code " + n;
    assert s[0] == 'c' && s[|s| - 1] == n[|n| - 1];
  }

  /** A termination by SIGINT or SIGTERM never ends the tool, whatever
      `fatal` says, and leaves the handle's output untouched. */
  lemma SignalledExitIsNeverFatal(cmd: string, signal: int, out: string, err: string, fatal: bool)
    requires signal == SIGINT || signal == SIGTERM
    ensures Classify(cmd, -signal, out, err, fatal).terminate.None?
    ensures Classify(cmd, -signal, out, err, fatal).stdout.None?
    ensures Classify(cmd, -signal, out, err, true) == Classify(cmd, -signal, out, err, false)
  {
  }

  /** The message with which a worker that has done `w` ends the tool, its
      process having exited with `code`: a missing working directory always
      ends it, a path that is a file kills only the worker's thread, and
      otherwise the exit is classified. */
  function WorkerEnd(cmd: string, w: Work, code: int): Option<string> {
    match w.cwdCheck
    case CwdMissing => Some("Invalid working directory " + w.cwd)
    case CwdNotADirectory => None
    case CwdOk =>
      Classify(cmd, code, if w.captured then w.process.stdout else "",
               if w.captured then w.process.stderr else "", w.fatal).terminate
  }

  /** One call of `run_command` once its working directory is known. */
  datatype Call = Call(cmd: string, mode: CmdMode, cwd: string)

  /** The message with which a call ends the tool before `run_command`
      returns, if it does: only a blocking call joins its worker, which does
      all of its work there. (`Replace` never returns at all.) */
  function CallEnd(c: Call, p: Process, fs: FileSystem, fatal: bool): Option<string> {
    if c.mode == Background || c.mode == Replace then None
    else WorkerEnd(c.cmd, Work(p, c.mode != Foreground, c.cwd, CheckCwd(fs, c.cwd), fatal), p.code)
  }

  /** The output text a blocking call leaves in its new handle. */
  function CallOutput(c: Call, p: Process, fs: FileSystem, fatal: bool): string {
    if CheckCwd(fs, c.cwd) != CwdOk then ""
    else
      var v := Classify(c.cmd, p.code, if c.mode != Foreground then p.stdout else "",
                        if c.mode != Foreground then p.stderr else "", fatal);
      if v.stdout.Some? then v.stdout.value else ""
  }

  /** In an existing directory, a call ends the tool exactly when it blocks,
      is fatal, and its process fails without being terminated by a signal;
      in a missing one, a blocking call always ends it. */
  lemma CallEndIff(c: Call, p: Process, fs: FileSystem, fatal: bool)
    ensures c.cwd in fs.dirs ==>
      (CallEnd(c, p, fs, fatal).Some? <==>
         c.mode != Background && c.mode != Replace && fatal && p.code != 0 && !IsTerminationSignal(p.code))
    ensures c.cwd !in fs.dirs && c.cwd !in fs.files && c.mode != Background && c.mode != Replace ==>
      CallEnd(c, p, fs, fatal) == Some("Invalid working directory " + c.cwd)
  {
  }

  /** The lookup of the west top directory. */
  function TopdirCall(): Call {
    Call("west topdir", CaptureResult, ".")
  }

  /** The message with which `run_command` ends the tool before returning, if
      it does: without a working directory and before the top directory is
      known, the lookup of `west topdir` may end it first, and otherwise the
      command runs in the directory that lookup answered. */
  function RunEnd(cmd: string, mode: CmdMode, cwd: Option<string>, fatal: bool,
                  p: Process, topdirRun: Process, fs: FileSystem, topdir: Option<string>): Option<string>
  {
    if cwd.Some? then CallEnd(Call(cmd, mode, cwd.value), p, fs, fatal)
    else if topdir.Some? then CallEnd(Call(cmd, mode, topdir.value), p, fs, fatal)
    else if CallEnd(TopdirCall(), topdirRun, fs, true).Some? then CallEnd(TopdirCall(), topdirRun, fs, true)
    else CallEnd(Call(cmd, mode, CallOutput(TopdirCall(), topdirRun, fs, true)), p, fs, fatal)
  }

  // ---------------------------------------------------------- the handle

  /** `Cmd`: one tracked command. */
  class Cmd {
    const cmd: string
    var code: int
    var stdout: string
    var proc: ProcState
    /** `thread is not None`. */
    var hasThread: bool
    /** The worker has released the handle's semaphore. */
    var done: bool
    /** The worker's remaining work, while it has not been joined. */
    var pending: Option<Work>

    constructor (cmd: string)
      ensures this.cmd == cmd && code == 0 && stdout == "" && proc == NotStarted
      ensures !hasThread && !done && pending.None?
    {
      this.cmd := cmd;
      code := 0;
      stdout := "";
      proc := NotStarted;
      hasThread := false;
      done := false;
      pending := None;
    }

    /** Joining the worker: it starts the process in the working directory and
        records the outcome. A missing directory is always fatal; a path that
        is a file makes the worker's thread die on an uncaught exception, which
        leaves the handle at its defaults; otherwise the exit is classified. */
    method Join() returns (terminate: Option<string>)
      modifies this
      ensures hasThread == old(hasThread) && pending.None?
      ensures old(pending).None? ==>
        (terminate.None? && done == old(done) && code == old(code) && stdout == old(stdout) && proc == old(proc))
      ensures old(pending).Some? ==> done && JoinedAs(old(pending).value, old(stdout), terminate)
      ensures old(pending).Some? && old(pending).value.cwdCheck != CwdOk ==>
        code == old(code) && stdout == old(stdout) && proc == old(proc)
    {
      if pending.None? {
        return None;
      }
      var w := pending.value;
      pending := None;
      done := true;
      match w.cwdCheck
      case CwdMissing =>
        terminate := Some("Invalid working directory " + w.cwd);
      case CwdNotADirectory =>
        terminate := None;
      case CwdOk =>
        proc := Finished;
        var v := Classify(cmd, w.process.code,
          if w.captured then w.process.stdout else "",
          if w.captured then w.process.stderr else "", w.fatal);
        code := v.code;
        if v.stdout.Some? {
          stdout := v.stdout.value;
        }
        terminate := v.terminate;
    }

    /** The handle's fields after its worker has done `w`, `before` being the
        output text the handle held. */
    ghost predicate JoinedAs(w: Work, before: string, terminate: Option<string>)
      reads this
    {
      && terminate == WorkerEnd(cmd, w, w.process.code)
      && (w.cwdCheck == CwdOk ==>
            var v := Classify(cmd, w.process.code,
              if w.captured then w.process.stdout else "",
              if w.captured then w.process.stderr else "", w.fatal);
            && proc == Finished && code == v.code
            && stdout == (if v.stdout.Some? then v.stdout.value else before))
    }
  }

  /** What a call of `run_command` comes to: it returns the handle, the tool
      terminates through the fatal path, the tool's process image is replaced,
      or an exception escapes. */
  datatype RunOutcome = Returned(handle: Cmd) | Terminated(message: string) | Replaced | Raised(exception: string)

  /** The message with which an outcome ends the tool, if it does. */
  function EndOf(r: RunOutcome): Option<string> {
    if r.Terminated? then Some(r.message) else None
  }

  // ------------------------------------------------------------ executor

  /** The process-wide command state: `_CMD_HISTORY` and the cached answer of
      `get_west_topdir`. */
  class Executor {
    var history: seq<Cmd>
    var topdir: Option<string>
    /** Every call made, with the mode and working directory it was given,
        which a `Cmd` handle does not keep. */
    ghost var calls: seq<Call>

    constructor ()
      ensures history == [] && topdir.None? && calls == []
    {
      history := [];
      topdir := None;
      calls := [];
    }

    /** `run_command` once the working directory is known. The new handle is
        appended to the history before anything else happens. */
    method Launch(cmd: string, mode: CmdMode, cwd: string, fatal: bool, p: Process, fs: FileSystem)
      returns (r: RunOutcome)
      modifies this
      ensures topdir == old(topdir)
      ensures |history| == |old(history)| + 1 && history[..|old(history)|] == old(history)
      ensures fresh(history[|old(history)|]) && history[|old(history)|].cmd == cmd
      ensures calls == old(calls) + [Call(cmd, mode, cwd)]
      ensures r.Returned? ==> r.handle == history[|old(history)|]
      ensures mode != Replace ==> r.Returned? || r.Terminated?
      ensures mode != Replace ==> EndOf(r) == CallEnd(Call(cmd, mode, cwd), p, fs, fatal)
      ensures mode == Replace ==>
        r == (match CheckCwd(fs, cwd)
              case CwdOk => Replaced
              case CwdNotADirectory => RunOutcome.Raised("NotADirectoryError")
              case CwdMissing => RunOutcome.Raised("FileNotFoundError"))
      ensures mode == Background ==>
        && r.Returned? && r.handle.hasThread && !r.handle.done
        && r.handle.code == 0 && r.handle.stdout == ""
        && r.handle.pending == Some(Work(p, false, cwd, CheckCwd(fs, cwd), fatal))
        && r.handle.proc == (if cwd in fs.dirs then Running(p.exitsWithinGrace, p.exitsOnSigterm) else NotStarted)
      ensures mode in {Foreground, CaptureResult, SpawnNewTerminal} ==>
        Completed(r, history[|old(history)|], Work(p, mode != Foreground, cwd, CheckCwd(fs, cwd), fatal))
      ensures mode in {Foreground, CaptureResult, SpawnNewTerminal} && r.Returned? ==>
        r.handle.stdout == CallOutput(Call(cmd, mode, cwd), p, fs, fatal)
    {
      var c := new Cmd(cmd);
      history := history + [c];
      calls := calls + [Call(cmd, mode, cwd)];
      if mode == Replace {
        match CheckCwd(fs, cwd)
        case CwdOk => return Replaced;
        case CwdNotADirectory => return RunOutcome.Raised("NotADirectoryError");
        case CwdMissing => return RunOutcome.Raised("FileNotFoundError");
      }
      var captured := mode != Background && mode != Foreground;
      c.hasThread := true;
      c.pending := Some(Work(p, captured, cwd, CheckCwd(fs, cwd), fatal));
      if mode == Background {
        if cwd in fs.dirs {
          c.proc := Running(p.exitsWithinGrace, p.exitsOnSigterm);
        }
        return Returned(c);
      }
      var terminate := c.Join();
      if terminate.Some? {
        return Terminated(terminate.value);
      }
      r := Returned(c);
    }

    /** A blocking call has joined its worker: it returns the finished handle
        unless the worker ended the tool. */
    ghost predicate Completed(r: RunOutcome, c: Cmd, w: Work)
      reads c
    {
      && c.done && c.hasThread && c.pending.None?
      && (w.cwdCheck != CwdOk ==> c.code == 0 && c.stdout == "" && c.proc == NotStarted)
      && (exists t :: c.JoinedAs(w, "", t) && (if t.Some? then r == Terminated(t.value) else r == Returned(c)))
    }

    /** `get_west_topdir`: runs `west topdir` once, capturing its output, and
        caches the answer. */
    method GetWestTopdir(run: Process, fs: FileSystem) returns (r: Result<string>)
      modifies this
      ensures old(topdir).Some? ==>
        r == Ok(old(topdir).value) && history == old(history) && topdir == old(topdir) && calls == old(calls)
      ensures old(topdir).None? ==>
        && |history| == |old(history)| + 1 && history[..|old(history)|] == old(history)
        && calls == old(calls) + [Call("west topdir", CaptureResult, ".")]
        && fresh(history[|old(history)|]) && history[|old(history)|].cmd == "west topdir"
        && (r.Ok? <==> topdir.Some?)
        && (r.Ok? ==> r.value == topdir.value == history[|old(history)|].stdout)
        && (!r.Ok? ==> r.Fatal?)
        && r == (if CallEnd(TopdirCall(), run, fs, true).Some? then Fatal(CallEnd(TopdirCall(), run, fs, true).value)
                 else Ok(CallOutput(TopdirCall(), run, fs, true)))
    {
      if topdir.Some? {
        return Ok(topdir.value);
      }
      var h := Launch("west topdir", CaptureResult, ".", true, run, fs);
      if h.Returned? {
        topdir := Some(h.handle.stdout);
        r := Ok(h.handle.stdout);
      } else {
        r := Fatal(h.message);
      }
    }

    /** `run_command`: without a working directory the command runs in the
        west top directory, whose first lookup itself runs (and records) one
        command. */
    method RunCommand(cmd: string, mode: CmdMode, cwd: Option<string>, fatal: bool,
                      p: Process, topdirRun: Process, fs: FileSystem)
      returns (r: RunOutcome)
      modifies this
      ensures |history| > |old(history)| && history[..|old(history)|] == old(history)
      ensures cwd.Some? ==> calls == old(calls) + [Call(cmd, mode, cwd.value)]
      ensures cwd.None? && old(topdir).Some? ==> calls == old(calls) + [Call(cmd, mode, old(topdir).value)]
      ensures cwd.None? && old(topdir).None? ==>
        && (topdir.None? ==> calls == old(calls) + [Call("west topdir", CaptureResult, ".")])
        && (topdir.Some? ==> calls == old(calls) + [Call("west topdir", CaptureResult, "."), Call(cmd, mode, topdir.value)])
      ensures cwd.Some? || old(topdir).Some? ==>
        && topdir == old(topdir)
        && |history| == |old(history)| + 1 && fresh(history[|old(history)|])
        && history[|old(history)|].cmd == cmd
        && (r.Returned? ==> r.handle == history[|old(history)|])
      ensures cwd.None? && old(topdir).None? ==>
        && |history| > |old(history)| && history[|old(history)|].cmd == "west topdir"
        && (topdir.None? ==> r.Terminated? && |history| == |old(history)| + 1)
        && (topdir.Some? ==> |history| == |old(history)| + 2 && history[|old(history)| + 1].cmd == cmd
                             && (r.Returned? ==> r.handle == history[|old(history)| + 1]))
      ensures mode == Background && (cwd.Some? || topdir.Some?) ==> r.Returned? && !r.handle.done
      ensures mode == Replace ==> !r.Returned?
      ensures mode != Replace ==> r.Returned? || r.Terminated?
      ensures mode != Replace ==> EndOf(r) == RunEnd(cmd, mode, cwd, fatal, p, topdirRun, fs, old(topdir))
      ensures r.Returned? ==> history[|history| - 1] == r.handle && r.handle.cmd == cmd
      ensures r.Returned? ==> |calls| > |old(calls)| && calls[|calls| - 1].cmd == cmd && calls[|calls| - 1].mode == mode
    {
      var dir: string;
      if cwd.Some? {
        dir := cwd.value;
      } else {
        var t := GetWestTopdir(topdirRun, fs);
        if !t.Ok? {
          return Terminated(t.message);
        }
        dir := t.value;
      }
      r := Launch(cmd, mode, dir, fatal, p, fs);
    }

    /** The cleanup-relevant state of every handle in the history. */
    function Snapshot(): (ts: seq<Tracked>)
      reads this, history
      ensures |ts| == |history|
      ensures forall i :: 0 <= i < |history| ==>
        ts[i] == Tracked(history[i].cmd, history[i].proc, history[i].hasThread, history[i].pending)
    {
      TrackedOf(history)
    }

    /** `_cleanup`'s work on the handle at position `i`: the steps it takes
        there, and how the tool ends if it stops there. */
    method CleanupHandle(i: nat) returns (done: seq<CleanupStep>, halt: Option<Shutdown>)
      requires i < |history|
      ensures Walk(done, halt) == CleanupOne(i, Snapshot()[i])
    {
      var c := history[i];
      assert Snapshot()[i] == Tracked(c.cmd, c.proc, c.hasThread, c.pending);
      done := [];
      var signal := c.proc.Running? && !c.proc.exitsWithinGrace;
      if signal {
        done := [Terminate(i)];
        if !c.proc.exitsOnSigterm {
          return done, Some(Escaped("TimeoutExpired"));
        }
      }
      halt := None;
      if c.hasThread {
        done := done + [JoinThread(i)];
        if c.pending.Some? {
          var end := WorkerEnd(c.cmd, c.pending.value, if signal then -SIGTERM else c.pending.value.process.code);
          if end.Some? {
            halt := Some(FatalExit(end.value));
          }
        }
      }
    }

    /** `_cleanup`: walks the history newest first; a process still running
        after a short wait is sent SIGTERM and waited for again, and if it
        still runs the `TimeoutExpired` escapes the handler; each worker
        thread is joined before the next handle is visited, and a worker still
        pending runs to its end there, which may end the tool; at the end the
        tool exits with status 0. */
    method Cleanup() returns (steps: seq<CleanupStep>, outcome: Shutdown)
      ensures steps == CleanupFrom(Snapshot(), |history|).steps
      ensures outcome == Ending(CleanupFrom(Snapshot(), |history|))
    {
      ghost var ts := Snapshot();
      ghost var whole := CleanupFrom(ts, |ts|);
      steps := [];
      assert whole.steps == steps + CleanupFrom(ts, |ts|).steps;
      var i := |history|;
      while i > 0
        invariant 0 <= i <= |history| == |ts|
        invariant ts == Snapshot()
        invariant whole.steps == steps + CleanupFrom(ts, i).steps
        invariant whole.halt == CleanupFrom(ts, i).halt
      {
        i := i - 1;
        ghost var here := CleanupOne(i, ts[i]);
        ghost var rest := CleanupFrom(ts, i);
        assert CleanupFrom(ts, i + 1) == (if here.halt.None? then Walk(here.steps + rest.steps, rest.halt) else here);
        var done, halt := CleanupHandle(i);
        AppendAssoc(steps, done, rest.steps);
        steps := steps + done;
        if halt.Some? {
          return steps, halt.value;
        }
      }
      assert steps + [] == steps;
      outcome := Exited(0);
    }
  }

  // ------------------------------------------------------------- cleanup

  /** What `_cleanup` sees of a handle: its command, its process, whether it
      has a worker thread, and the worker's work if it has not been joined. */
  datatype Tracked = Tracked(cmd: string, proc: ProcState, hasThread: bool, pending: Option<Work>)

  function TrackedOf(cs: seq<Cmd>): (ts: seq<Tracked>)
    reads cs
    ensures |ts| == |cs|
    ensures forall i :: 0 <= i < |cs| ==> ts[i] == Tracked(cs[i].cmd, cs[i].proc, cs[i].hasThread, cs[i].pending)
  {
    if cs == [] then [] else [Tracked(cs[0].cmd, cs[0].proc, cs[0].hasThread, cs[0].pending)] + TrackedOf(cs[1..])
  }

  /** What `_cleanup` does to the handle at a position of the history. */
  datatype CleanupStep = Terminate(index: nat) | JoinThread(index: nat)

  /** How the tool ends: `sys.exit`, an exception escaping the handler, or
      `log.fatal` in a worker joined by the handler. */
  datatype Shutdown = Exited(status: int) | Escaped(exception: string) | FatalExit(message: string)

  /** The steps of a walk over the history, and how it stopped early, if it did. */
  datatype Walk = Walk(steps: seq<CleanupStep>, halt: Option<Shutdown>)

  /** The process at this handle is still running after the short wait. */
  predicate Straggles(t: Tracked) {
    t.proc.Running? && !t.proc.exitsWithinGrace
  }

  /** The process at this handle ignores both the short wait and SIGTERM. */
  predicate Stuck(t: Tracked) {
    Straggles(t) && !t.proc.exitsOnSigterm
  }

  /** What joining this handle's thread ends the tool with, if anything: a
      worker still pending sees its process end, by SIGTERM when it had to be
      signalled, and then does the rest of its work. */
  function JoinEnd(t: Tracked): Option<string> {
    if t.hasThread && t.pending.Some? then
      WorkerEnd(t.cmd, t.pending.value, if Straggles(t) then -SIGTERM else t.pending.value.process.code)
    else None
  }

  /** `_cleanup` stops at this handle. */
  predicate Halts(t: Tracked) {
    Stuck(t) || JoinEnd(t).Some?
  }

  /** How the tool ends when `_cleanup` stops at this handle. */
  function HaltOf(t: Tracked): Shutdown
    requires Halts(t)
  {
    if Stuck(t) then Escaped("TimeoutExpired") else FatalExit(JoinEnd(t).value)
  }

  /** `_cleanup`'s treatment of the handle at position `i`. */
  function CleanupOne(i: nat, t: Tracked): Walk {
    Walk((if Straggles(t) then [Terminate(i)] else []) + (if !Stuck(t) && t.hasThread then [JoinThread(i)] else []),
         if Halts(t) then Some(HaltOf(t)) else None)
  }

  /** `_cleanup` over the handles at positions `n - 1` down to 0. */
  function CleanupFrom(ts: seq<Tracked>, n: nat): Walk
    requires n <= |ts|
    decreases n
  {
    if n == 0 then Walk([], None)
    else
      var here := CleanupOne(n - 1, ts[n - 1]);
      if here.halt.Some? then here
      else
        var rest := CleanupFrom(ts, n - 1);
        Walk(here.steps + rest.steps, rest.halt)
  }

  /** How the tool ends after a walk: `sys.exit(0)` when the walk went through. */
  function Ending(w: Walk): Shutdown {
    if w.halt.Some? then w.halt.value else Exited(0)
  }

  /** Handles are visited newest first: the positions named by the steps never
      increase, and each is a position the walk has reached. */
  lemma {:induction false} CleanupNewestFirst(ts: seq<Tracked>, n: nat)
    requires n <= |ts|
    ensures forall j, k :: 0 <= j < k < |CleanupFrom(ts, n).steps| ==>
      CleanupFrom(ts, n).steps[j].index >= CleanupFrom(ts, n).steps[k].index
    ensures forall j :: 0 <= j < |CleanupFrom(ts, n).steps| ==> CleanupFrom(ts, n).steps[j].index < n
    decreases n
  {
    if n > 0 {
      CleanupNewestFirst(ts, n - 1);
    }
  }

  /** SIGTERM goes only to processes still running after the short wait. */
  lemma {:induction false} CleanupSignalsOnlyStragglers(ts: seq<Tracked>, n: nat, i: nat)
    requires n <= |ts|
    requires Terminate(i) in CleanupFrom(ts, n).steps
    ensures i < n && Straggles(ts[i])
    decreases n
  {
    var here := CleanupOne(n - 1, ts[n - 1]);
    if here.halt.None? && Terminate(i) !in here.steps {
      CleanupSignalsOnlyStragglers(ts, n - 1, i);
    }
  }

  /** The walk reaches its end, and the tool exits with status 0, exactly when
      no process ignores both the wait and SIGTERM and no worker joined on the
      way ends the tool. */
  lemma {:induction false} CleanupFinishesIff(ts: seq<Tracked>, n: nat)
    requires n <= |ts|
    ensures Ending(CleanupFrom(ts, n)) == Exited(0) <==>
      forall i :: 0 <= i < n ==> !Stuck(ts[i]) && JoinEnd(ts[i]).None?
    decreases n
  {
    if n > 0 {
      CleanupFinishesIff(ts, n - 1);
    }
  }

  /** A walk that stops early stops at the newest handle where it can stop,
      and ends the tool the way that handle does. */
  lemma {:induction false} CleanupStopsAtNewestHalt(ts: seq<Tracked>, n: nat)
    requires n <= |ts|
    requires CleanupFrom(ts, n).halt.Some?
    ensures exists i :: 0 <= i < n && Halts(ts[i]) && (forall j :: i < j < n ==> !Halts(ts[j]))
                        && CleanupFrom(ts, n).halt == Some(HaltOf(ts[i]))
    decreases n
  {
    if !Halts(ts[n - 1]) {
      CleanupStopsAtNewestHalt(ts, n - 1);
      var i :| 0 <= i < n - 1 && Halts(ts[i]) && (forall j :: i < j < n - 1 ==> !Halts(ts[j]))
                && CleanupFrom(ts, n - 1).halt == Some(HaltOf(ts[i]));
      assert forall j :: i < j < n ==> !Halts(ts[j]);
    }
  }

  /** A background command that failed, found by `_cleanup`, ends the tool
      when its worker is joined, instead of the exit with status 0. */
  lemma FailedBackgroundWorkerEndsCleanup(cmd: string, cwd: string, p: Process)
    requires p.code == 1 && p.exitsWithinGrace
    ensures var w := Work(p, false, cwd, CwdOk, true);
      var t := Tracked(cmd, Running(p.exitsWithinGrace, p.exitsOnSigterm), true, Some(w));
      Ending(CleanupFrom([t], 1)) == FatalExit("Cmd `" + cmd + "` failed: code " + IntToString(1))
  {
  }

  /** A walk that reaches its end signals every straggler and joins the
      worker thread of every handle that has one, and no other. */
  lemma {:induction false} CleanupCoversEveryHandle(ts: seq<Tracked>, n: nat, i: nat)
    requires n <= |ts| && i < n
    requires CleanupFrom(ts, n).halt.None?
    ensures JoinThread(i) in CleanupFrom(ts, n).steps <==> ts[i].hasThread
    ensures Terminate(i) in CleanupFrom(ts, n).steps <==> Straggles(ts[i])
    decreases n
  {
    var here := CleanupOne(n - 1, ts[n - 1]);
    var rest := CleanupFrom(ts, n - 1);
    assert CleanupFrom(ts, n).steps == here.steps + rest.steps;
    if i < n - 1 {
      CleanupCoversEveryHandle(ts, n - 1, i);
      assert JoinThread(i) !in here.steps && Terminate(i) !in here.steps;
    } else {
      CleanupNewestFirst(ts, n - 1);
      assert JoinThread(i) !in rest.steps && Terminate(i) !in rest.steps by {
        forall j | 0 <= j < |rest.steps|
          ensures rest.steps[j].index < i
        {
        }
      }
    }
  }

  // ---------------------------------------------------------- directories

  /** `get_manifest_dir`. */
  function ManifestDir(topdir: string): string {
    Join(topdir, "gale")
  }

  /** `get_projects_dir`. */
  function ProjectsDir(topdir: string): string {
    Join(ManifestDir(topdir), "projects")
  }

  /** `get_tools_dir`. */
  function ToolsDir(topdir: string): string {
    Join(ProjectsDir(topdir), "tools")
  }

  /** `get_bsim_dir`. */
  function BsimDir(topdir: string): string {
    Join(ToolsDir(topdir), "bsim")
  }

  /** Joining a segment appends the separator and the segment. */
  lemma JoinAppends(base: string, segment: string, spaced: string)
    requires spaced == "/" + segment
    ensures Join(base, segment) == base + spaced
  {
    AppendAssoc(base, "/", segment);
  }

  lemma BsimPathLiteral()
    ensures "/gale" + "/projects" + "/tools" + "/bsim" == "/gale/projects/tools/bsim"
  {
  }

  /** The BabbleSim directory sits four segments below the west top
      directory, through the manifest, projects and tools directories. */
  lemma DirectoryChain(topdir: string)
    ensures BsimDir(topdir) == topdir + "/gale/projects/tools/bsim"
  {
    JoinAppends(topdir, "gale", "/gale");
    JoinAppends(ManifestDir(topdir), "projects", "/projects");
    JoinAppends(ProjectsDir(topdir), "tools", "/tools");
    JoinAppends(ToolsDir(topdir), "bsim", "/bsim");
    AppendAssoc(topdir, "/gale", "/projects");
    AppendAssoc(topdir, "/gale" + "/projects", "/tools");
    AppendAssoc(topdir, "/gale" + "/projects" + "/tools", "/bsim");
    BsimPathLiteral();
  }
}
