/** backend/agent/tools/command_paths.py: the standard locations of the commands the tools run,
    and the resolution of a command name to a full path. Whether a path exists and what `which`
    finds on the search path belong to the machine; they are the fields of a `Host`. */
module CommandPaths {
  import opened Wrappers
  import Py

  /** `Path(p).exists()` and `shutil.which(name)`. */
  datatype Host = Host(present: string -> bool, which: string -> Option<string>)

  /** `COMMAND_PATHS` */
  const Table: map<string, string> := map[
    "ifconfig" := "/sbin/ifconfig", "networksetup" := "/usr/sbin/networksetup",
    "scutil" := "/usr/sbin/scutil", "pmset" := "/usr/bin/pmset", "lsof" := "/usr/sbin/lsof",
    "mdfind" := "/usr/bin/mdfind", "screencapture" := "/usr/sbin/screencapture",
    "open" := "/usr/bin/open", "pbpaste" := "/usr/bin/pbpaste", "pbcopy" := "/usr/bin/pbcopy",
    "ping" := "/sbin/ping", "curl" := "/usr/bin/curl", "git" := "/usr/bin/git",
    "python3" := "/usr/bin/python3", "df" := "/bin/df", "ps" := "/bin/ps",
    "sw_vers" := "/usr/bin/sw_vers", "uname" := "/usr/bin/uname", "sysctl" := "/usr/sbin/sysctl",
    "ls" := "/bin/ls", "date" := "/bin/date", "ffprobe" := "/usr/local/bin/ffprobe"]

  /** Every standard location is an absolute path. */
  lemma TableAbsolute(name: string)
    requires name in Table
    ensures Py.StartsWith(Table[name], "/")
  {
  }

  /** The table's entry for `name`, when the host has that file. */
  predicate TableHit(name: string, host: Host) {
    name in Table && host.present(Table[name])
  }

  /** What `which` found, when it found a non-empty path. */
  predicate WhichHit(name: string, host: Host) {
    host.which(name).Some? && host.which(name).value != ""
  }

  /** `resolve_command` */
  function Resolve(name: string, host: Host): (r: string)
    ensures r == name || (TableHit(name, host) && r == Table[name]) || (WhichHit(name, host) && r == host.which(name).value)
    ensures Py.StartsWith(name, "/") ==> r == name
    ensures r != name ==> !Py.StartsWith(name, "/") && (TableHit(name, host) || WhichHit(name, host))
  {
    if Py.StartsWith(name, "/") then name
    else if TableHit(name, host) then Table[name]
    else if WhichHit(name, host) then host.which(name).value
    else name
  }

  /** A path is returned as it is; otherwise the standard location wins over `which`, and the
      name itself is the last resort. */
  lemma ResolveOrder(name: string, host: Host)
    ensures Py.StartsWith(name, "/") ==> Resolve(name, host) == name
    ensures !Py.StartsWith(name, "/") && TableHit(name, host) ==> Resolve(name, host) == Table[name]
    ensures !Py.StartsWith(name, "/") && !TableHit(name, host) && WhichHit(name, host) ==>
      Resolve(name, host) == host.which(name).value
    ensures !Py.StartsWith(name, "/") && !TableHit(name, host) && !WhichHit(name, host) ==> Resolve(name, host) == name
  {
  }

  /** The result is the name itself, a standard location the host has, or what `which` reported;
      a name with its own slash is never looked up. */
  lemma ResolveSources(name: string, host: Host)
    ensures var r := Resolve(name, host);
      || r == name
      || (name in Table && r == Table[name] && host.present(r))
      || (host.which(name) == Some(r) && r != "")
  {
  }

  /** Resolving twice changes nothing once the first answer is absolute: a table hit always is,
      and so is whatever `which` reports as an absolute path. */
  lemma ResolveIdempotent(name: string, host: Host)
    requires !WhichHit(name, host) || Py.StartsWith(host.which(name).value, "/") || TableHit(name, host)
    ensures Py.StartsWith(Resolve(name, host), "/") ==> Resolve(Resolve(name, host), host) == Resolve(name, host)
    ensures TableHit(name, host) ==> Py.StartsWith(Resolve(name, host), "/")
  {
    if !Py.StartsWith(name, "/") && TableHit(name, host) {
      TableAbsolute(name);
    }
  }

  /** `resolve_command_list` */
  function ResolveList(command: seq<string>, host: Host): (r: seq<string>)
    ensures |r| == |command|
    ensures command != [] ==> r[0] == Resolve(command[0], host)
    ensures forall i :: 1 <= i < |command| ==> r[i] == command[i]
  {
    if command == [] then command else [Resolve(command[0], host)] + command[1..]
  }

  /** The list is a copy with only the program replaced: the arguments are kept, and a list whose
      program is already absolute comes back equal to the input. */
  lemma ResolveListFacts(command: seq<string>, host: Host)
    ensures command == [] ==> ResolveList(command, host) == []
    ensures command != [] ==> ResolveList(command, host)[1..] == command[1..]
    ensures command != [] && Py.StartsWith(command[0], "/") ==> ResolveList(command, host) == command
  {
    if command != [] {
      var r := ResolveList(command, host);
      assert r[1..] == command[1..];
      if Py.StartsWith(command[0], "/") {
        assert r == [command[0]] + command[1..];
      }
    }
  }
}
