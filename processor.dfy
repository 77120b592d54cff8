/** The command processor session of command_processor.py: one history list that
    grows by one stripped line per non-blank submission, a tokeniser, and a fixed
    chain of exact-match commands with an external-process fallback. Every
    outcome is a single string. */
module Processor {
  import opened Wrappers
  import opened Strings
  import opened Ordering
  import opened FileSystem

  /** What `subprocess.run(..., capture_output=True, text=True)` hands back. */
  datatype Completed = Completed(stdout: string, stderr: string)

  /** `psutil.virtual_memory()`: the percentage as Python prints it, and byte counts. */
  datatype Memory = Memory(percent: string, used: nat, total: nat)

  /** One entry of `psutil.process_iter(['pid', 'name'])`. */
  datatype ProcInfo = ProcInfo(pid: nat, name: string)

  /** The collaborators the processor calls but does not define. A `Failure`
      carries the text of the exception raised (`str(e)`). */
  datatype Env = Env(
    shlexSplit: string -> Result<seq<string>, string>,  // shlex.split
    b64Decode: string -> Result<string, string>,        // b64decode(...).decode("utf-8")
    parseOctal: string -> Option<int>,                  // int(text, 8)
    run: seq<string> -> Result<Completed, string>,      // subprocess.run(tokens, ...)
    describe: OsError -> string,                        // str(e) of an OS error
    cpuPercent: string,                                 // psutil.cpu_percent(interval=1), printed
    memory: Memory,
    processes: seq<ProcInfo>)

  /** The part of the host the handlers change: the filesystem and the working directory. */
  datatype World = World(files: Fs, cwd: string)

  /** A command's result text together with the host state it leaves behind. */
  datatype Reply = Reply(out: string, world: World)

  const HistoryShown: nat := 20
  const ProcessesShown: nat := 15
  const MiB: nat := 1048576
  const FileCommands := {"pwd", "ls", "cd", "mkdir", "rmdir", "touch", "rm", "cp", "mv", "rename"}
  const ViewCommands := {"cat", "vim", "__save__", "chmod"}
  const MonitorCommands := {"cpu", "mem", "ps"}
  const OpenEditor := "__OPEN_EDITOR__"
  const ClearScreen := "__CLEAR_SCREEN__"

  /** The text of an exception that reaches the outer `except` of `parse_and_execute`. */
  function Raised(msg: string): string {
    "Error: " + msg
  }

  /** The text of an exception a handler catches itself. */
  function Caught(cmd: string, msg: string): string {
    cmd + ": " + msg
  }

  function MissingOperand(cmd: string): string {
    cmd + ": missing operand"
  }

  /** The argument `ls` and `rm` act on: the last one. */
  function LastArg(args: seq<string>): string
    requires |args| > 0
  {
    args[|args| - 1]
  }

  /** `f"{pid:>6}  {name}"`. */
  function FormatProcess(p: ProcInfo): string {
    PadLeft(NatToString(p.pid), 6) + "  " + p.name
  }

  /** The editor sentinel `vim` returns: the file name and its content, tagged. */
  function EditorMarker(file: string, content: string): string {
    OpenEditor + "::" + file + "::" + content
  }

  // ------------------------------------------------------------------
  // Specification of one dispatched command
  // ------------------------------------------------------------------

  ghost function Ls(args: seq<string>, w: World, env: Env): Reply {
    var path := if |args| > 0 then LastArg(args) else ".";
    if path !in w.files then Reply("ls: cannot access '" + path + "': No such file or directory", w)
    else if w.files[path].File? then Reply(Raised(env.describe(NotADirectory(path))), w)
    else Reply(Join(SortedOf(Children(w.files, path)), "\n"), w)
  }

  function Cd(args: seq<string>, w: World, env: Env): Reply {
    if |args| == 0 then Reply(MissingOperand("cd"), w)
    else match ChangeDir(w.files, args[0])
      case Some(e) => Reply(Caught("cd", env.describe(e)), w)
      case None => Reply("Changed directory to " + args[0], World(w.files, args[0]))
  }

  function Mkdir(args: seq<string>, w: World, env: Env): Reply {
    if |args| == 0 then Reply(MissingOperand("mkdir"), w)
    else match MakeDirs(w.files, args[0])
      case Failure(e) => Reply(Raised(env.describe(e)), w)
      case Success(fs) => Reply("Created directory " + args[0], World(fs, w.cwd))
  }

  function Rmdir(args: seq<string>, w: World, env: Env): Reply {
    if |args| == 0 then Reply(MissingOperand("rmdir"), w)
    else match RemoveDir(w.files, args[0])
      case Failure(e) => Reply(Caught("rmdir", env.describe(e)), w)
      case Success(fs) => Reply("Removed directory " + args[0], World(fs, w.cwd))
  }

  function Touch(args: seq<string>, w: World, env: Env): Reply {
    if |args| == 0 then Reply(MissingOperand("touch"), w)
    else match OpenAppend(w.files, args[0])
      case Failure(e) => Reply(Raised(env.describe(e)), w)
      case Success(fs) => Reply("Created file " + args[0], World(fs, w.cwd))
  }

  function Rm(args: seq<string>, w: World, env: Env): Reply {
    if |args| == 0 then Reply(MissingOperand("rm"), w)
    else
      var target := LastArg(args);
      if IsDir(w.files, target) then Reply("Removed " + target, World(RemoveTree(w.files, target), w.cwd))
      else match Remove(w.files, target)
        case Failure(e) => Reply(Caught("rm", env.describe(e)), w)
        case Success(fs) => Reply("Removed " + target, World(fs, w.cwd))
  }

  function Cp(args: seq<string>, w: World, env: Env): Reply {
    if |args| < 2 then Reply(MissingOperand("cp"), w)
    else
      var src, dest := args[0], args[1];
      var r := if IsDir(w.files, src) then CopyTree(w.files, src, dest) else CopyFile(w.files, src, dest);
      match r
      case Failure(e) => Reply(Caught("cp", env.describe(e)), w)
      case Success(fs) => Reply("Copied " + src + " -> " + dest, World(fs, w.cwd))
  }

  function Mv(args: seq<string>, w: World, env: Env): Reply {
    if |args| < 2 then Reply(MissingOperand("mv"), w)
    else match Move(w.files, args[0], args[1])
      case Failure(e) => Reply(Caught("mv", env.describe(e)), w)
      case Success(fs) => Reply("Moved " + args[0] + " -> " + args[1], World(fs, w.cwd))
  }

  function RenameCmd(args: seq<string>, w: World, env: Env): Reply {
    if |args| < 2 then Reply(MissingOperand("rename"), w)
    else match Rename(w.files, args[0], args[1])
      case Failure(e) => Reply(Caught("rename", env.describe(e)), w)
      case Success(fs) => Reply("Renamed " + args[0] + " -> " + args[1], World(fs, w.cwd))
  }

  function Cat(args: seq<string>, w: World, env: Env): Reply {
    if |args| == 0 then Reply(MissingOperand("cat"), w)
    else match ReadFile(w.files, args[0])
      case Success(text) => Reply(text, w)
      case Failure(FileNotFound(_)) => Reply("cat: " + args[0] + ": No such file", w)
      case Failure(e) => Reply(Caught("cat", env.describe(e)), w)
  }

  function Vim(args: seq<string>, w: World, env: Env): Reply {
    if |args| == 0 then Reply("vim: missing file name", w)
    else
      var file := args[0];
      match (if file in w.files then Success(w.files) else OpenAppend(w.files, file))
      case Failure(e) => Reply(Raised(env.describe(e)), w)
      case Success(fs) =>
        match ReadFile(fs, file)
        case Failure(e) => Reply(Raised(env.describe(e)), World(fs, w.cwd))
        case Success(text) => Reply(EditorMarker(file, text), World(fs, w.cwd))
  }

  function Save(args: seq<string>, w: World, env: Env): Reply {
    if |args| < 2 then Reply("Error: Invalid save command", w)
    else match env.b64Decode(Join(args[1..], " "))
      case Failure(msg) => Reply(Raised(msg), w)
      case Success(text) =>
        match WriteFile(w.files, args[0], text)
        case Failure(e) => Reply(Raised(env.describe(e)), w)
        case Success(fs) => Reply("Saved file " + args[0], World(fs, w.cwd))
  }

  function ChmodCmd(args: seq<string>, w: World, env: Env): Reply {
    if |args| < 2 then Reply(MissingOperand("chmod"), w)
    else match env.parseOctal(args[0])
      case None => Reply(Caught("chmod", env.describe(InvalidOctal(args[0]))), w)
      case Some(_) =>
        match Chmod(w.files, args[1])
        case Some(e) => Reply(Caught("chmod", env.describe(e)), w)
        case None => Reply("Changed permissions of " + args[1] + " to " + args[0], w)
  }

  function MemoryLine(m: Memory): string {
    "Memory Usage: " + m.percent + "% (" + NatToString(m.used / MiB) + "MB / " + NatToString(m.total / MiB) + "MB)"
  }

  function ProcessLines(procs: seq<ProcInfo>): seq<string> {
    seq(|procs|, i requires 0 <= i < |procs| => FormatProcess(procs[i]))
  }

  /** The external process's answer: its standard output, or its standard error when the output is empty. */
  function Fallback(tokens: seq<string>, env: Env): string {
    match env.run(tokens)
    case Failure(msg) => Raised(msg)
    case Success(c) => if c.stdout != "" then c.stdout else c.stderr
  }

  /** The command chain: exact match on the command name, first match wins,
      anything unmatched goes to an external process. */
  ghost function Dispatch(cmd: string, args: seq<string>, hist: seq<string>, w: World, env: Env): (r: Reply)
    ensures r.world != w ==> cmd in FileCommands || cmd in ViewCommands
  {
    if cmd == "pwd" then Reply(w.cwd, w)
    else if cmd == "ls" then Ls(args, w, env)
    else if cmd == "cd" then Cd(args, w, env)
    else if cmd == "mkdir" then Mkdir(args, w, env)
    else if cmd == "rmdir" then Rmdir(args, w, env)
    else if cmd == "touch" then Touch(args, w, env)
    else if cmd == "rm" then Rm(args, w, env)
    else if cmd == "cp" then Cp(args, w, env)
    else if cmd == "mv" then Mv(args, w, env)
    else if cmd == "rename" then RenameCmd(args, w, env)
    else if cmd == "cat" then Cat(args, w, env)
    else if cmd == "vim" then Vim(args, w, env)
    else if cmd == "__save__" then Save(args, w, env)
    else if cmd == "chmod" then ChmodCmd(args, w, env)
    else if cmd == "cpu" then Reply("CPU Usage: " + env.cpuPercent + "%", w)
    else if cmd == "mem" then Reply(MemoryLine(env.memory), w)
    else if cmd == "ps" then Reply(Join(Take(ProcessLines(env.processes), ProcessesShown), "\n"), w)
    else if cmd == "history" then Reply(Join(LastN(hist, HistoryShown), "\n"), w)
    else if cmd == "clear" then Reply(ClearScreen, w)
    else Reply(Fallback([cmd] + args, env), w)
  }

  /** What a stripped, non-blank line produces once it is in the history `hist`. */
  ghost function Respond(line: string, hist: seq<string>, w: World, env: Env): (r: Reply)
    ensures r.world != w ==>
      var split := env.shlexSplit(line);
      split.Success? && split.value != [] && (split.value[0] in FileCommands || split.value[0] in ViewCommands)
  {
    match env.shlexSplit(line)
    case Failure(msg) => Reply(Raised(msg), w)
    case Success(tokens) =>
      if tokens == [] then Reply(Raised("list index out of range"), w)
      else Dispatch(tokens[0], tokens[1..], hist, w, env)
  }

  // ------------------------------------------------------------------
  // The session object
  // ------------------------------------------------------------------

  /** `ps`: one formatted line per process, in the order they are enumerated. */
  method ListProcesses(procs: seq<ProcInfo>) returns (lines: seq<string>)
    ensures |lines| == |procs|
    ensures forall i :: 0 <= i < |procs| ==> lines[i] == FormatProcess(procs[i])
  {
    lines := [];
    for i := 0 to |procs|
      invariant |lines| == i
      invariant forall j :: 0 <= j < i ==> lines[j] == FormatProcess(procs[j])
    {
      lines := lines + [FormatProcess(procs[i])];
    }
  }

  class CommandProcessor {
    var history: seq<string>

    constructor()
      ensures history == []
    {
      history := [];
    }

    /** Runs one submitted line against the host `os`. */
    method ParseAndExecute(line: string, os: HostOs, env: Env) returns (out: string)
      modifies this, os
      ensures Strip(line) == [] ==> out == "" && history == old(history)
      ensures Strip(line) == [] ==> os.files == old(os.files) && os.cwd == old(os.cwd)
      ensures Strip(line) != [] ==> history == old(history) + [Strip(line)]
      ensures Strip(line) != [] ==>
        Reply(out, World(os.files, os.cwd)) == Respond(Strip(line), history, old(World(os.files, os.cwd)), env)
    {
      var s := Strip(line);
      if s == [] {
        return "";
      }
      history := history + [s];
      out := Execute(s, os, env);
    }

    /** Tokenises a line already recorded in the history and runs its command;
        a tokeniser failure or an empty token list is reported, not raised. */
    method Execute(s: string, os: HostOs, env: Env) returns (out: string)
      modifies os
      ensures Reply(out, World(os.files, os.cwd)) == Respond(s, history, old(World(os.files, os.cwd)), env)
    {
      var split := env.shlexSplit(s);
      if split.Failure? {
        return Raised(split.error);
      }
      var tokens := split.value;
      if tokens == [] {
        return Raised("list index out of range");
      }
      var cmd, args := tokens[0], tokens[1..];
      if cmd in FileCommands {
        out := FileCommand(cmd, args, os, env);
      } else if cmd in ViewCommands {
        out := ViewCommand(cmd, args, os, env);
      } else if cmd in MonitorCommands {
        out := MonitorCommand(cmd, args, os, env);
      } else {
        out := OtherCommand(cmd, args, os, env);
      }
    }

    /** The basic file and directory commands. */
    method FileCommand(cmd: string, args: seq<string>, os: HostOs, env: Env) returns (out: string)
      requires cmd in FileCommands
      modifies os
      ensures Reply(out, World(os.files, os.cwd)) == Dispatch(cmd, args, history, old(World(os.files, os.cwd)), env)
    {
      if cmd == "pwd" {
        out := os.cwd;
      } else if cmd == "ls" {
        var path := if |args| > 0 then args[|args| - 1] else ".";
        if path !in os.files {
          out := "ls: cannot access '" + path + "': No such file or directory";
        } else if os.files[path].File? {
          out := Raised(env.describe(NotADirectory(path)));
        } else {
          var names := os.ListDir(path);
          out := Join(SortUnique(names), "\n");
          SortUniqueIsSortedOf(names);
        }
      } else if cmd == "cd" {
        if |args| == 0 {
          out := MissingOperand("cd");
        } else {
          var e := ChangeDir(os.files, args[0]);
          if e.Some? {
            out := Caught("cd", env.describe(e.value));
          } else {
            os.cwd := args[0];
            out := "Changed directory to " + os.cwd;
          }
        }
      } else if cmd == "mkdir" {
        if |args| == 0 {
          out := MissingOperand("mkdir");
        } else {
          var path := args[0];
          var r := MakeDirs(os.files, path);
          if r.Failure? {
            out := Raised(env.describe(r.error));
          } else {
            os.files := r.value;
            out := "Created directory " + path;
          }
        }
      } else if cmd == "rmdir" {
        if |args| == 0 {
          out := MissingOperand("rmdir");
        } else {
          var r := RemoveDir(os.files, args[0]);
          if r.Failure? {
            out := Caught("rmdir", env.describe(r.error));
          } else {
            os.files := r.value;
            out := "Removed directory " + args[0];
          }
        }
      } else if cmd == "touch" {
        if |args| == 0 {
          out := MissingOperand("touch");
        } else {
          var r := OpenAppend(os.files, args[0]);
          if r.Failure? {
            out := Raised(env.describe(r.error));
          } else {
            os.files := r.value;
            out := "Created file " + args[0];
          }
        }
      } else if cmd == "rm" {
        if |args| == 0 {
          out := MissingOperand("rm");
        } else {
          var target := args[|args| - 1];
          if IsDir(os.files, target) {
            os.files := RemoveTree(os.files, target);
            out := "Removed " + target;
          } else {
            var r := Remove(os.files, target);
            if r.Failure? {
              out := Caught("rm", env.describe(r.error));
            } else {
              os.files := r.value;
              out := "Removed " + target;
            }
          }
        }
      } else if cmd == "cp" {
        if |args| < 2 {
          out := MissingOperand("cp");
        } else {
          var src, dest := args[0], args[1];
          var r := if IsDir(os.files, src) then CopyTree(os.files, src, dest) else CopyFile(os.files, src, dest);
          if r.Failure? {
            out := Caught("cp", env.describe(r.error));
          } else {
            os.files := r.value;
            out := "Copied " + src + " -> " + dest;
          }
        }
      } else if cmd == "mv" {
        if |args| < 2 {
          out := MissingOperand("mv");
        } else {
          var src, dest := args[0], args[1];
          var r := Move(os.files, src, dest);
          if r.Failure? {
            out := Caught("mv", env.describe(r.error));
          } else {
            os.files := r.value;
            out := "Moved " + src + " -> " + dest;
          }
        }
      } else if cmd == "rename" {
        if |args| < 2 {
          out := MissingOperand("rename");
        } else {
          var r := Rename(os.files, args[0], args[1]);
          if r.Failure? {
            out := Caught("rename", env.describe(r.error));
          } else {
            os.files := r.value;
            out := "Renamed " + args[0] + " -> " + args[1];
          }
        }
      }
    }

    /** The file viewing and editing commands, including the save half of the editor protocol. */
    method ViewCommand(cmd: string, args: seq<string>, os: HostOs, env: Env) returns (out: string)
      requires cmd in ViewCommands
      modifies os
      ensures Reply(out, World(os.files, os.cwd)) == Dispatch(cmd, args, history, old(World(os.files, os.cwd)), env)
    {
      if cmd == "cat" {
        if |args| == 0 {
          out := MissingOperand("cat");
        } else {
          var filename := args[0];
          var r := ReadFile(os.files, filename);
          if r.Success? {
            out := r.value;
          } else if r.error.FileNotFound? {
            out := "cat: " + filename + ": No such file";
          } else {
            out := Caught("cat", env.describe(r.error));
          }
        }
      } else if cmd == "vim" {
        if |args| == 0 {
          out := "vim: missing file name";
        } else {
          var filename := args[0];
          var created := Success(os.files);
          if filename !in os.files {
            created := OpenAppend(os.files, filename);
          }
          if created.Failure? {
            out := Raised(env.describe(created.error));
          } else {
            os.files := created.value;
            var r := ReadFile(os.files, filename);
            if r.Failure? {
              out := Raised(env.describe(r.error));
            } else {
              out := EditorMarker(filename, r.value);
            }
          }
        }
      } else if cmd == "__save__" {
        if |args| < 2 {
          out := "Error: Invalid save command";
        } else {
          var filename := args[0];
          var decoded := env.b64Decode(Join(args[1..], " "));
          if decoded.Failure? {
            out := Raised(decoded.error);
          } else {
            var r := WriteFile(os.files, filename, decoded.value);
            if r.Failure? {
              out := Raised(env.describe(r.error));
            } else {
              os.files := r.value;
              out := "Saved file " + filename;
            }
          }
        }
      } else if cmd == "chmod" {
        if |args| < 2 {
          out := MissingOperand("chmod");
        } else {
          var mode := env.parseOctal(args[0]);
          if mode.None? {
            out := Caught("chmod", env.describe(InvalidOctal(args[0])));
          } else {
            var e := Chmod(os.files, args[1]);
            if e.Some? {
              out := Caught("chmod", env.describe(e.value));
            } else {
              out := "Changed permissions of " + args[1] + " to " + args[0];
            }
          }
        }
      }
    }

    /** The system monitoring commands; they read the metrics collaborator only. */
    method MonitorCommand(cmd: string, args: seq<string>, os: HostOs, env: Env) returns (out: string)
      requires cmd in MonitorCommands
      ensures Reply(out, World(os.files, os.cwd)) == Dispatch(cmd, args, history, World(os.files, os.cwd), env)
    {
      if cmd == "cpu" {
        out := "CPU Usage: " + env.cpuPercent + "%";
      } else if cmd == "mem" {
        var m := env.memory;
        out := "Memory Usage: " + m.percent + "% (" + NatToString(m.used / MiB) + "MB / " + NatToString(m.total / MiB) + "MB)";
      } else {
        var processes := ListProcesses(env.processes);
        assert processes == ProcessLines(env.processes);
        out := Join(Take(processes, ProcessesShown), "\n");
      }
    }


    /** `history`, `clear`, and the fallback to an external process for every other name. */
    method OtherCommand(cmd: string, args: seq<string>, os: HostOs, env: Env) returns (out: string)
      requires cmd !in FileCommands && cmd !in ViewCommands && cmd !in MonitorCommands
      ensures Reply(out, World(os.files, os.cwd)) == Dispatch(cmd, args, history, World(os.files, os.cwd), env)
    {
      if cmd == "history" {
        out := Join(LastN(history, HistoryShown), "\n");
      } else if cmd == "clear" {
        out := ClearScreen;
      } else {
        var res := env.run([cmd] + args);
        if res.Failure? {
          out := Raised(res.error);
        } else {
          out := if res.value.stdout != "" then res.value.stdout else res.value.stderr;
        }
      }
    }
  }
}
