/** The shell tool of backend/agent/tools/shell/executor.py (and its copy in
    backend/agent/tools/mac_tools.py): the dangerous-command screen and the order of the checks in
    `execute`. Resolving the working directory, the directory test and `subprocess.run` are
    parameters. */
module Shell {
  import opened Wrappers
  import Py
  import Paths
  import Validators

  /** `dangerous_patterns`, in the order they are tried: a pattern and the reason it gives. */
  const DangerousPatterns: seq<(string, string)> := [
    ("rm -rf /", "禁止删除根目录"),
    ("rm -rf /*", "禁止删除根目录下所有文件"),
    ("mkfs", "禁止格式化磁盘"),
    ("dd if=/dev/zero", "禁止危险的dd操作"),
    (":(){ :|:& };:", "禁止fork炸弹"),
    ("> /dev/sda", "禁止直接写入磁盘设备"),
    ("chmod -R 777 /", "禁止修改根目录权限"),
    ("chown -R", "禁止递归修改所有权")]

  /** The reason of the first pattern whose lower-cased form occurs in `text`. */
  function FirstMatch(patterns: seq<(string, string)>, text: string): Option<string> {
    if patterns == [] then None
    else if Py.Contains(text, Py.Lower(patterns[0].0)) then Some(patterns[0].1)
    else FirstMatch(patterns[1..], text)
  }

  /** The reason given is one of the listed reasons. */
  lemma {:induction false} FirstMatchListed(patterns: seq<(string, string)>, text: string)
    ensures FirstMatch(patterns, text).Some? ==>
      exists i :: 0 <= i < |patterns| && FirstMatch(patterns, text).value == patterns[i].1
  {
    if patterns != [] && !Py.Contains(text, Py.Lower(patterns[0].0)) {
      FirstMatchListed(patterns[1..], text);
      if FirstMatch(patterns, text).Some? {
        var i :| 0 <= i < |patterns| - 1 && FirstMatch(patterns, text).value == patterns[1..][i].1;
        assert patterns[i + 1] == patterns[1..][i];
      }
    }
  }

  /** The scan answers with the reason of the first pattern that occurs, and with nothing when
      none does. */
  lemma {:induction false} FirstMatchIsFirst(patterns: seq<(string, string)>, text: string, i: nat)
    requires i < |patterns| && Py.Contains(text, Py.Lower(patterns[i].0))
    requires forall j :: 0 <= j < i ==> !Py.Contains(text, Py.Lower(patterns[j].0))
    ensures FirstMatch(patterns, text) == Some(patterns[i].1)
  {
    if i > 0 {
      forall j | 0 <= j < i - 1 ensures !Py.Contains(text, Py.Lower(patterns[1..][j].0)) {
        assert patterns[1..][j] == patterns[j + 1];
      }
      FirstMatchIsFirst(patterns[1..], text, i - 1);
    }
  }

  lemma {:induction false} FirstMatchNone(patterns: seq<(string, string)>, text: string)
    ensures FirstMatch(patterns, text).None? <==>
      forall j :: 0 <= j < |patterns| ==> !Py.Contains(text, Py.Lower(patterns[j].0))
  {
    if patterns != [] {
      FirstMatchNone(patterns[1..], text);
      if FirstMatch(patterns, text).None? {
        forall j | 1 <= j < |patterns| ensures !Py.Contains(text, Py.Lower(patterns[j].0)) {
          assert patterns[1..][j - 1] == patterns[j];
        }
      }
    }
  }

  /** `_is_dangerous_command`: the command is lower-cased and stripped, and the first listed pattern
      occurring in it gives the reason. A command is dangerous exactly when one of the patterns
      occurs in it, and then the reason is one of the listed reasons. */
  function IsDangerousCommand(command: string): (r: (bool, string))
    ensures r.0 <==>
      exists j :: 0 <= j < |DangerousPatterns| && Py.Contains(Py.Strip(Py.Lower(command)), Py.Lower(DangerousPatterns[j].0))
    ensures !r.0 ==> r.1 == ""
    ensures r.0 ==> exists j :: 0 <= j < |DangerousPatterns| && r.1 == DangerousPatterns[j].1
  {
    var text := Py.Strip(Py.Lower(command));
    FirstMatchNone(DangerousPatterns, text);
    FirstMatchListed(DangerousPatterns, text);
    var m := FirstMatch(DangerousPatterns, text);
    if m.Some? then (true, m.value) else (false, "")
  }

  /** Matching is by substring, so anything containing "rm -rf /" (such as "rm -rf /tmp/x") is
      refused as deleting the root directory. */
  lemma RmRfRootRefused(command: string)
    requires Py.Contains(Py.Strip(Py.Lower(command)), "rm -rf /")
    ensures IsDangerousCommand(command) == (true, "禁止删除根目录")
  {
    var text := Py.Strip(Py.Lower(command));
    var ps := DangerousPatterns;
    assert ps[0] == ("rm -rf /", "禁止删除根目录");
    LowerPatterns();
    FirstMatchHead(ps, text);
  }

  /** The first two patterns have no capitals. */
  lemma LowerPatterns()
    ensures Py.Lower("rm -rf /") == "rm -rf /" && Py.Lower("rm -rf /*") == "rm -rf /*"
  {
    Py.LowerNoUpper("rm -rf /");
    Py.LowerNoUpper("rm -rf /*");
  }

  lemma FirstMatchHead(patterns: seq<(string, string)>, text: string)
    requires patterns != [] && Py.Contains(text, Py.Lower(patterns[0].0))
    ensures FirstMatch(patterns, text) == Some(patterns[0].1)
  {
  }

  /** The second reason is never given: its pattern contains the first one, which is tried first. */
  lemma SecondReasonUnreachable(command: string)
    ensures IsDangerousCommand(command).1 != DangerousPatterns[1].1
  {
    var text := Py.Strip(Py.Lower(command));
    assert FirstMatch(DangerousPatterns, text) != Some(DangerousPatterns[1].1) by {
      ShadowFacts();
      Shadowed(DangerousPatterns, text);
    }
  }

  /** The first pattern occurs in the second, and the second reason differs from every other. */
  lemma ShadowFacts()
    ensures Py.Contains(Py.Lower(DangerousPatterns[1].0), Py.Lower(DangerousPatterns[0].0))
    ensures forall j :: 0 <= j < |DangerousPatterns| && j != 1 ==> DangerousPatterns[j].1 != DangerousPatterns[1].1
  {
    LowerPatterns();
    assert Py.OccursAt("rm -rf /*", "rm -rf /", 0);
    Py.ContainsAt("rm -rf /*", "rm -rf /", 0);
    assert |DangerousPatterns[1].1| == 12;
    assert forall j :: 0 <= j < |DangerousPatterns| && j != 1 ==> |DangerousPatterns[j].1| != 12;
  }

  /** A pattern that contains an earlier one can never be the first match. */
  lemma Shadowed(patterns: seq<(string, string)>, text: string)
    requires |patterns| >= 2 && Py.Contains(Py.Lower(patterns[1].0), Py.Lower(patterns[0].0))
    requires forall j :: 0 <= j < |patterns| && j != 1 ==> patterns[j].1 != patterns[1].1
    ensures FirstMatch(patterns, text) != Some(patterns[1].1)
  {
    if !Py.Contains(text, Py.Lower(patterns[0].0)) {
      if Py.Contains(text, Py.Lower(patterns[1].0)) {
        Py.ContainsTrans(text, Py.Lower(patterns[1].0), Py.Lower(patterns[0].0));
      }
      var rest := patterns[1..][1..];
      assert FirstMatch(patterns, text) == FirstMatch(rest, text);
      FirstMatchListed(rest, text);
      if FirstMatch(rest, text).Some? {
        var j :| 0 <= j < |rest| && FirstMatch(rest, text).value == rest[j].1;
        assert rest[j] == patterns[j + 2];
      }
    }
  }

  /** What `subprocess.run` did. */
  datatype RunOutcome =
    | Completed(returncode: int, stdout: string, stderr: string)
    | TimedOut
    | Crashed(message: string)

  /** The result dictionaries of `execute`. `Error` echoes the command (as `echoed`) only on the branches that
      set it. */
  datatype ShellResult =
    | Error(error: string, echoed: Option<string>)
    | Finished(ok: bool, stdout: string, stderr: string, exitCode: int, command: string,
               workingDirectory: string)

  const CommandRequired := "command is required"
  const RefusedPrefix := "危险命令被拒绝: "
  const FailedPrefix := "命令执行失败: "
  const BadDirectory := "工作目录不存在或不是目录"
  const DefaultDirectory := "当前目录"

  /** The file system and the process, as the tool sees them. */
  datatype Environment = Environment(
    normalize: string -> Paths.Path,
    roots: seq<Paths.Path>,
    isDir: Paths.Path -> bool,
    run: (string, Option<string>, int) -> RunOutcome)

  /** `execute(args)` with the `command`, `working_directory` and `timeout` arguments. */
  function Execute(commandArg: string, workingDir: string, timeout: int, env: Environment): (r: ShellResult)
    ensures var command := Py.Strip(commandArg);
      && (command == "" ==> r == Error(CommandRequired, None))
      && (command != "" && IsDangerousCommand(command).0 ==>
            r == Error(RefusedPrefix + IsDangerousCommand(command).1, Some(command)))
      && (r.Finished? ==> command != "" && !IsDangerousCommand(command).0 && (r.ok <==> r.exitCode == 0))
  {
    ExecuteChecks(IsDangerousCommand, commandArg, workingDir, timeout, env);
    var r := ExecuteWith(IsDangerousCommand, commandArg, workingDir, timeout, env);
    if r.Finished? then ExecuteFinished(IsDangerousCommand, commandArg, workingDir, timeout, env); r else r
  }

  /** The body of `execute` for a given screen; the lemmas below hold for every screen, and so for
      `_is_dangerous_command`. */
  function ExecuteWith(screen: string -> (bool, string), commandArg: string, workingDir: string, timeout: int,
                       env: Environment): ShellResult {
    var command := Py.Strip(commandArg);
    if command == "" then Error(CommandRequired, None)
    else if screen(command).0 then Error(RefusedPrefix + screen(command).1, Some(command))
    else
      var cwd := WorkingDirectory(workingDir, command, env);
      if cwd.Err? then cwd.error else Report(env.run(command, cwd.value, timeout), command, cwd.value, timeout)
  }

  /** The working-directory step: none asked for, or the checked directory, or the error to return. */
  function WorkingDirectory(workingDir: string, command: string, env: Environment): Result<Option<string>, ShellResult> {
    if workingDir == "" then Ok(None)
    else
      var wd := env.normalize(workingDir);
      var raised := Validators.EnsurePathAllowed(env.roots, wd);
      if raised.Some? then Err(Error(FailedPrefix + raised.value, Some(command)))
      else if !env.isDir(wd) then Err(Error(BadDirectory, None))
      else Ok(Some(Paths.Text(wd)))
  }

  /** The dictionary built from what the process did. */
  function Report(outcome: RunOutcome, command: string, cwd: Option<string>, timeout: int): (r: ShellResult)
    ensures r.Finished? ==> (r.ok <==> r.exitCode == 0) && r.command == command
  {
    match outcome
    case Completed(code, out, err) =>
      Finished(code == 0, Py.Strip(out), Py.Strip(err), code, command,
               if cwd.Some? && cwd.value != "" then cwd.value else DefaultDirectory)
    case TimedOut => Error("命令执行超时（" + Py.IntToString(timeout) + "秒）", Some(command))
    case Crashed(m) => Error(FailedPrefix + m, Some(command))
  }

  /** The checks come in order: an empty command is refused first, then a dangerous one. */
  lemma ExecuteChecks(screen: string -> (bool, string), commandArg: string, workingDir: string, timeout: int,
                      env: Environment)
    ensures var command := Py.Strip(commandArg); var r := ExecuteWith(screen, commandArg, workingDir, timeout, env);
      && (command == "" ==> r == Error(CommandRequired, None))
      && (command != "" && screen(command).0 ==> r == Error(RefusedPrefix + screen(command).1, Some(command)))
  {
  }

  /** A command that ran passed both checks and reports success exactly when its exit code is 0. */
  lemma ExecuteFinished(screen: string -> (bool, string), commandArg: string, workingDir: string, timeout: int,
                        env: Environment)
    requires ExecuteWith(screen, commandArg, workingDir, timeout, env).Finished?
    ensures var command := Py.Strip(commandArg); var r := ExecuteWith(screen, commandArg, workingDir, timeout, env);
      (r.ok <==> r.exitCode == 0) && r.command == command && command != "" && !screen(command).0
  {
    var command := Py.Strip(commandArg);
    assert command != "" && !screen(command).0;
    var cwd := WorkingDirectory(workingDir, command, env);
    assert cwd.Ok?;
    var r := Report(env.run(command, cwd.value, timeout), command, cwd.value, timeout);
    assert ExecuteWith(screen, commandArg, workingDir, timeout, env) == r;
  }

  /** An empty or dangerous command is answered before the working directory is looked at or any
      process is started: the environment plays no part. */
  lemma RefusedBeforeRunning(screen: string -> (bool, string), commandArg: string, workingDir: string, timeout: int,
                             e1: Environment, e2: Environment)
    requires Py.Strip(commandArg) == "" || screen(Py.Strip(commandArg)).0
    ensures ExecuteWith(screen, commandArg, workingDir, timeout, e1) == ExecuteWith(screen, commandArg, workingDir, timeout, e2)
    ensures ExecuteWith(screen, commandArg, workingDir, timeout, e1).Error?
  {
  }

  /** Without a working directory the command runs in the current one, and the exit code decides
      `ok`. */
  lemma RunsInCurrentDirectory(screen: string -> (bool, string), commandArg: string, timeout: int, env: Environment)
    requires Py.Strip(commandArg) != "" && !screen(Py.Strip(commandArg)).0
    requires env.run(Py.Strip(commandArg), None, timeout).Completed?
    ensures var r := ExecuteWith(screen, commandArg, "", timeout, env);
      r.Finished? && r.workingDirectory == DefaultDirectory
      && r.exitCode == env.run(Py.Strip(commandArg), None, timeout).returncode
  {
    var command := Py.Strip(commandArg);
    assert WorkingDirectory("", command, env) == Ok(None);
    assert ExecuteWith(screen, commandArg, "", timeout, env) == Report(env.run(command, None, timeout), command, None, timeout);
  }

  /** A working directory outside the allowed roots is refused with the validator's message before
      anything runs. */
  lemma DisallowedDirectoryRefused(screen: string -> (bool, string), commandArg: string, workingDir: string,
                                   timeout: int, env: Environment)
    requires Py.Strip(commandArg) != "" && !screen(Py.Strip(commandArg)).0
    requires workingDir != "" && !Validators.IsPathAllowed(env.roots, env.normalize(workingDir))
    ensures ExecuteWith(screen, commandArg, workingDir, timeout, env)
            == Error(FailedPrefix + Validators.NotAllowed, Some(Py.Strip(commandArg)))
  {
  }

  /** The tool refuses "rm -rf /tmp/x"-like commands, whatever the environment. */
  lemma ExecuteRefusesRmRf(commandArg: string, workingDir: string, timeout: int, env: Environment)
    requires Py.Contains(Py.Strip(Py.Lower(Py.Strip(commandArg))), "rm -rf /")
    ensures Execute(commandArg, workingDir, timeout, env) == Error(RefusedPrefix + "禁止删除根目录", Some(Py.Strip(commandArg)))
  {
    var command := Py.Strip(commandArg);
    RmRfRootRefused(command);
  }
}
