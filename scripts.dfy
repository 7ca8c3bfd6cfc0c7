/** `RunPythonScriptTool` and `PortKillerTool` of backend/agent/tools/developer/scripts.py, repeated
    in backend/agent/tools/mac_tools.py. Starting a process and `normalize_path` are parameters. */
module DeveloperScripts {
  import opened Wrappers
  import Py
  import Paths
  import Validators
  import FileTools
  import Comprehension
  import CommandRunner

  // ---------------------------------------------------------------------------
  // Running a Python script
  // ---------------------------------------------------------------------------

  const Python := "/usr/bin/python3"
  const ScriptTimeout := 120
  const ScriptRequired := "script_path is required"
  const ScriptMissing := "脚本文件不存在"
  const ScriptFailedPrefix := "Python脚本执行失败: "

  /** The message of the `TypeError` that `CommandRunner(timeout_s=120, cwd=…)` raises: the
      constructor takes no `cwd`. */
  const CwdRejected := "CommandRunner.__init__() got an unexpected keyword argument 'cwd'"

  /** `["/usr/bin/python3", str(script_path)] + script_args` */
  function ScriptCommand(script: Paths.Path, args: seq<string>): (cmd: seq<string>)
    ensures |cmd| == |args| + 2 && cmd[0] == Python && cmd[1] == Paths.Text(script) && cmd[2..] == args
  {
    [Python, Paths.Text(script)] + args
  }

  /** `RunPythonScriptTool.execute` as written. A non-empty working directory is checked and then
      handed to a constructor that does not accept it, so the script never runs. */
  function RunScriptAsWritten(scriptPath: string, args: seq<string>, workingDir: string,
                              normalize: string -> Paths.Path, roots: seq<Paths.Path>,
                              fs: FileTools.FileSystem, exec: CommandRunner.Invocation -> CommandRunner.Process)
    : (r: Result<CommandRunner.RunResult, string>)
    ensures scriptPath == "" ==> r == Err(ScriptRequired)
    ensures workingDir != "" ==> r.Err?
    ensures r.Ok? ==> r.value == CommandRunner.Call(exec, ScriptCommand(normalize(scriptPath), args), ScriptTimeout)
  {
    if scriptPath == "" then Err(ScriptRequired)
    else
      var script := normalize(scriptPath);
      if !Validators.IsPathAllowed(roots, script) then Err(ScriptFailedPrefix + Validators.NotAllowed)
      else if !FileTools.Exists(fs, script) then Err(ScriptMissing)
      else if workingDir != "" then
        var wd := normalize(workingDir);
        if !Validators.IsPathAllowed(roots, wd) then Err(ScriptFailedPrefix + Validators.NotAllowed)
        else Err(ScriptFailedPrefix + CwdRejected)
      else Ok(CommandRunner.Call(exec, ScriptCommand(script, args), ScriptTimeout))
  }

  /** As written, every call with a working directory fails, whatever the process would have done:
      an allowed, existing script in an allowed directory gets the constructor's `TypeError`. */
  lemma WorkingDirectoryNeverRuns(scriptPath: string, args: seq<string>, workingDir: string,
                                  normalize: string -> Paths.Path, roots: seq<Paths.Path>,
                                  fs: FileTools.FileSystem, exec: CommandRunner.Invocation -> CommandRunner.Process)
    requires scriptPath != "" && workingDir != ""
    ensures RunScriptAsWritten(scriptPath, args, workingDir, normalize, roots, fs, exec).Err?
    ensures Validators.IsPathAllowed(roots, normalize(scriptPath)) && FileTools.Exists(fs, normalize(scriptPath))
            && Validators.IsPathAllowed(roots, normalize(workingDir)) ==>
              RunScriptAsWritten(scriptPath, args, workingDir, normalize, roots, fs, exec)
                == Err(ScriptFailedPrefix + CwdRejected)
  {
  }

  /** `RunPythonScriptTool.execute` as intended: the script runs in the working directory. */
  function RunScript(scriptPath: string, args: seq<string>, workingDir: string,
                     normalize: string -> Paths.Path, roots: seq<Paths.Path>,
                     fs: FileTools.FileSystem, exec: CommandRunner.Invocation -> CommandRunner.Process)
    : (r: Result<CommandRunner.RunResult, string>)
    ensures scriptPath == "" ==> r == Err(ScriptRequired)
    ensures scriptPath != "" && !Validators.IsPathAllowed(roots, normalize(scriptPath)) ==>
              r == Err(ScriptFailedPrefix + Validators.NotAllowed)
    ensures r.Ok? <==> scriptPath != "" && Validators.IsPathAllowed(roots, normalize(scriptPath))
                       && FileTools.Exists(fs, normalize(scriptPath))
                       && (workingDir != "" ==> Validators.IsPathAllowed(roots, normalize(workingDir)))
    ensures r.Ok? ==>
              var cwd := if workingDir == "" then None else Some(Paths.Text(normalize(workingDir)));
              r.value == CommandRunner.Run(exec(CommandRunner.Invocation(
                           ScriptCommand(normalize(scriptPath), args), ScriptTimeout, cwd)))
  {
    if scriptPath == "" then Err(ScriptRequired)
    else
      var script := normalize(scriptPath);
      if !Validators.IsPathAllowed(roots, script) then Err(ScriptFailedPrefix + Validators.NotAllowed)
      else if !FileTools.Exists(fs, script) then Err(ScriptMissing)
      else if workingDir != "" then
        var wd := normalize(workingDir);
        if !Validators.IsPathAllowed(roots, wd) then Err(ScriptFailedPrefix + Validators.NotAllowed)
        else Ok(CommandRunner.Run(exec(CommandRunner.Invocation(ScriptCommand(script, args), ScriptTimeout,
                                                                Some(Paths.Text(wd))))))
      else Ok(CommandRunner.Call(exec, ScriptCommand(script, args), ScriptTimeout))
  }

  /** The intended tool differs from the written one only where a working directory is given and
      allowed for an allowed, existing script. */
  lemma RunScriptAgrees(scriptPath: string, args: seq<string>, workingDir: string,
                        normalize: string -> Paths.Path, roots: seq<Paths.Path>,
                        fs: FileTools.FileSystem, exec: CommandRunner.Invocation -> CommandRunner.Process)
    ensures var asWritten := RunScriptAsWritten(scriptPath, args, workingDir, normalize, roots, fs, exec);
      var intended := RunScript(scriptPath, args, workingDir, normalize, roots, fs, exec);
      (asWritten == intended <==> !(workingDir != "" && intended.Ok?))
  {
  }

  // ---------------------------------------------------------------------------
  // Killing the processes on a port
  // ---------------------------------------------------------------------------

  const Lsof := "/usr/sbin/lsof"
  const Ps := "/bin/ps"
  const Kill := "/bin/kill"
  const PortTimeout := 10
  const InvalidPort := "Invalid port number"

  /** `f"端口 {port} 未被占用"` */
  function NotInUse(port: int): string {
    "端口 " + Py.IntToString(port) + " 未被占用"
  }

  function LsofCommand(port: int): seq<string> {
    [Lsof, "-ti", ":" + Py.IntToString(port)]
  }

  function PsCommand(pid: string): seq<string> {
    [Ps, "-p", pid, "-o", "pid,comm,args"]
  }

  /** The signal: SIGKILL when forced, SIGTERM otherwise. */
  function Signal(force: bool): string {
    if force then "-9" else "-15"
  }

  function KillCommand(force: bool, pid: string): seq<string> {
    [Kill, Signal(force), pid]
  }

  /** `[pid.strip() for pid in stdout.strip().split("\n") if pid.strip()]` */
  function Pids(stdout: string): seq<string> {
    Comprehension.NonEmptyImages(Py.Split(Py.Strip(stdout), "\n"), Py.Strip)
  }

  /** Every process id read from `lsof` is non-empty and has no surrounding whitespace. */
  lemma PidsFacts(stdout: string, k: nat)
    requires k < |Pids(stdout)|
    ensures Pids(stdout)[k] != "" && Py.IsStripped(Pids(stdout)[k])
  {
    var i := Comprehension.NonEmptyImagesFrom(Py.Split(Py.Strip(stdout), "\n"), Py.Strip, k);
  }

  /** `kill_result.get("ok") or kill_result.get("exit_code") == 0` */
  predicate KillSucceeded(result: CommandRunner.RunResult) {
    result.Ok() || result.ExitCode() == 0
  }

  /** Whether the kill command for a process id succeeded. */
  function Killed(force: bool, exec: CommandRunner.Invocation -> CommandRunner.Process): string -> bool {
    (pid: string) => KillSucceeded(CommandRunner.Call(exec, KillCommand(force, pid), PortTimeout))
  }

  /** The `ps` outputs collected for `pids`, in order, for the commands that succeeded. */
  function ProcessInfo(pids: seq<string>, exec: CommandRunner.Invocation -> CommandRunner.Process): seq<string> {
    if pids == [] then []
    else
      var ps := CommandRunner.Call(exec, PsCommand(pids[|pids| - 1]), PortTimeout);
      ProcessInfo(pids[..|pids| - 1], exec) + (if ps.Ok() then [ps.Stdout()] else [])
  }

  datatype PortData =
    | Free(message: string)
    | Cleared(port: int, killedPids: seq<string>, processInfo: seq<string>, force: bool)

  /** `PortKillerTool.execute`, as a specification. */
  function PortSpec(port: int, force: bool, showProcessInfo: bool,
                    exec: CommandRunner.Invocation -> CommandRunner.Process): (r: Result<PortData, string>)
    ensures r.Err? <==> port < 1 || port > 65535
    ensures r.Err? ==> r.error == InvalidPort
    ensures r.Ok? && r.value.Free? ==> r.value.message == NotInUse(port)
    ensures r.Ok? && r.value.Cleared? ==>
      r.value.port == port && r.value.force == force && (!showProcessInfo ==> r.value.processInfo == [])
  {
    if port == 0 || port < 1 || port > 65535 then Err(InvalidPort)
    else
      var lsof := CommandRunner.Call(exec, LsofCommand(port), PortTimeout);
      if !lsof.Ok() then Ok(Free(NotInUse(port)))
      else
        var pids := Pids(lsof.Stdout());
        if pids == [] then Ok(Free(NotInUse(port)))
        else
          Ok(Cleared(port, FileTools.Keep(pids, Killed(force, exec)),
                     if showProcessInfo then ProcessInfo(pids, exec) else [], force))
  }

  /** The `for pid in pids` loop that collects `ps` output. */
  method CollectInfo(pids: seq<string>, exec: CommandRunner.Invocation -> CommandRunner.Process)
    returns (info: seq<string>)
    ensures info == ProcessInfo(pids, exec)
  {
    info := [];
    for i := 0 to |pids|
      invariant info == ProcessInfo(pids[..i], exec)
    {
      assert pids[..i + 1][..i] == pids[..i];
      var ps := CommandRunner.Call(exec, PsCommand(pids[i]), PortTimeout);
      if ps.Ok() {
        info := info + [ps.Stdout()];
      }
    }
    assert pids[..|pids|] == pids;
  }

  /** The `for pid in pids` loop that sends the signal. */
  method KillAll(pids: seq<string>, force: bool, exec: CommandRunner.Invocation -> CommandRunner.Process)
    returns (killed: seq<string>)
    ensures killed == FileTools.Keep(pids, Killed(force, exec))
  {
    killed := [];
    for i := 0 to |pids|
      invariant killed == FileTools.Keep(pids[..i], Killed(force, exec))
    {
      FileTools.KeepSnoc(pids, i, Killed(force, exec));
      var signal := if force then "-9" else "-15";
      var result := CommandRunner.Call(exec, [Kill, signal, pids[i]], PortTimeout);
      if result.Ok() || result.ExitCode() == 0 {
        killed := killed + [pids[i]];
      }
    }
    assert pids[..|pids|] == pids;
  }

  method KillPort(port: int, force: bool, showProcessInfo: bool,
                  exec: CommandRunner.Invocation -> CommandRunner.Process) returns (r: Result<PortData, string>)
    ensures r == PortSpec(port, force, showProcessInfo, exec)
  {
    if port == 0 || port < 1 || port > 65535 {
      return Err(InvalidPort);
    }
    var lsof := CommandRunner.Call(exec, LsofCommand(port), PortTimeout);
    if !lsof.Ok() {
      return Ok(Free(NotInUse(port)));
    }
    var pids := Pids(lsof.Stdout());
    if pids == [] {
      return Ok(Free(NotInUse(port)));
    }
    var info := [];
    if showProcessInfo {
      info := CollectInfo(pids, exec);
    }
    var killed := KillAll(pids, force, exec);
    r := Ok(Cleared(port, killed, info, force));
  }

  /** A port outside 1..65535 is refused whatever the processes would do: no command is consulted. */
  lemma InvalidPortRefused(port: int, force: bool, showProcessInfo: bool,
                           exec1: CommandRunner.Invocation -> CommandRunner.Process,
                           exec2: CommandRunner.Invocation -> CommandRunner.Process)
    requires port < 1 || port > 65535
    ensures PortSpec(port, force, showProcessInfo, exec1) == Err(InvalidPort)
    ensures PortSpec(port, force, showProcessInfo, exec1) == PortSpec(port, force, showProcessInfo, exec2)
  {
  }

  /** A process id counts as killed exactly when `lsof` listed it and its kill command exited with
      status 0; the signal is SIGKILL exactly when forced; without `show_process_info` nothing is
      reported about the processes. */
  lemma KilledIff(port: int, force: bool, showProcessInfo: bool,
                  exec: CommandRunner.Invocation -> CommandRunner.Process, pid: string)
    ensures var r := PortSpec(port, force, showProcessInfo, exec);
      r.Ok? && r.value.Cleared? ==>
        var pids := Pids(CommandRunner.Call(exec, LsofCommand(port), PortTimeout).Stdout());
        && (pid in r.value.killedPids <==>
              pid in pids && CommandRunner.Call(exec, KillCommand(force, pid), PortTimeout).ExitCode() == 0)
        && r.value.force == force && r.value.port == port
        && (!showProcessInfo ==> r.value.processInfo == [])
        && |r.value.killedPids| <= |pids|
    ensures Signal(force) == "-9" <==> force
  {
    var r := PortSpec(port, force, showProcessInfo, exec);
    if r.Ok? && r.value.Cleared? {
      var pids := Pids(CommandRunner.Call(exec, LsofCommand(port), PortTimeout).Stdout());
      FileTools.KeepMembers(pids, Killed(force, exec), pid);
    }
  }

  /** Every reported `ps` output comes from a successful `ps` of one of the process ids. */
  lemma {:induction false} ProcessInfoFrom(pids: seq<string>, exec: CommandRunner.Invocation -> CommandRunner.Process,
                                           k: nat) returns (i: nat)
    requires k < |ProcessInfo(pids, exec)|
    ensures i < |pids|
    ensures var ps := CommandRunner.Call(exec, PsCommand(pids[i]), PortTimeout);
      ps.Ok() && ProcessInfo(pids, exec)[k] == ps.Stdout()
  {
    var init := pids[..|pids| - 1];
    var last := CommandRunner.Call(exec, PsCommand(pids[|pids| - 1]), PortTimeout);
    var tail := if last.Ok() then [last.Stdout()] else [];
    assert ProcessInfo(pids, exec) == ProcessInfo(init, exec) + tail;
    if k < |ProcessInfo(init, exec)| {
      i := ProcessInfoFrom(init, exec, k);
      assert init[i] == pids[i];
      assert ProcessInfo(pids, exec)[k] == ProcessInfo(init, exec)[k];
    } else {
      i := |pids| - 1;
      assert ProcessInfo(pids, exec)[k] == tail[0];
    }
  }

  /** There is at most one `ps` output per process id. */
  lemma {:induction false} ProcessInfoBound(pids: seq<string>, exec: CommandRunner.Invocation -> CommandRunner.Process)
    ensures |ProcessInfo(pids, exec)| <= |pids|
  {
    if pids != [] {
      ProcessInfoBound(pids[..|pids| - 1], exec);
    }
  }
}
