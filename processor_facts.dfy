/** Properties of the command processor, stated over the dispatch specification. */
module ProcessorFacts {
  import opened Wrappers
  import opened Strings
  import opened Ordering
  import opened FileSystem
  import opened Processor

  // ------------------------------------------------------------------
  // Argument counts and argument selection
  // ------------------------------------------------------------------

  /** The commands that need one operand answer "<cmd>: missing operand" without one and change nothing. */
  lemma OneOperandRequired(cmd: string, hist: seq<string>, w: World, env: Env)
    requires cmd in {"cd", "mkdir", "rmdir", "touch", "rm", "cat"}
    ensures Dispatch(cmd, [], hist, w, env) == Reply(cmd + ": missing operand", w)
  {
  }

  /** The commands that need two operands answer "<cmd>: missing operand" with fewer and change nothing. */
  lemma TwoOperandsRequired(cmd: string, args: seq<string>, hist: seq<string>, w: World, env: Env)
    requires cmd in {"cp", "mv", "rename", "chmod"} && |args| < 2
    ensures Dispatch(cmd, args, hist, w, env) == Reply(cmd + ": missing operand", w)
  {
  }

  /** `vim` and the internal save command have their own messages for missing operands. */
  lemma EditorOperandsRequired(args: seq<string>, hist: seq<string>, w: World, env: Env)
    ensures Dispatch("vim", [], hist, w, env) == Reply("vim: missing file name", w)
    ensures |args| < 2 ==> Dispatch("__save__", args, hist, w, env) == Reply("Error: Invalid save command", w)
  {
  }

  /** `ls` lists its last argument, or "." when it has none. */
  lemma LsUsesLastArgument(args: seq<string>, hist: seq<string>, w: World, env: Env)
    ensures |args| > 0 ==> Dispatch("ls", args, hist, w, env) == Dispatch("ls", [args[|args| - 1]], hist, w, env)
    ensures Dispatch("ls", [], hist, w, env) == Dispatch("ls", ["."], hist, w, env)
  {
  }

  /** `rm` removes its last argument only. */
  lemma RmUsesLastArgument(args: seq<string>, hist: seq<string>, w: World, env: Env)
    requires |args| > 0
    ensures Dispatch("rm", args, hist, w, env) == Dispatch("rm", [args[|args| - 1]], hist, w, env)
  {
  }

  /** The one-operand commands use the first argument and ignore the rest. */
  lemma ExtraOperandIgnored(cmd: string, args: seq<string>, hist: seq<string>, w: World, env: Env)
    requires cmd in {"cd", "mkdir", "rmdir", "touch", "cat", "vim"} && |args| >= 1
    ensures Dispatch(cmd, args, hist, w, env) == Dispatch(cmd, args[..1], hist, w, env)
  {
  }

  /** The two-operand commands use the first two arguments and ignore the rest. */
  lemma ExtraOperandsIgnored(cmd: string, args: seq<string>, hist: seq<string>, w: World, env: Env)
    requires cmd in {"cp", "mv", "rename", "chmod"} && |args| >= 2
    ensures Dispatch(cmd, args, hist, w, env) == Dispatch(cmd, args[..2], hist, w, env)
  {
  }

  // ------------------------------------------------------------------
  // Individual handlers
  // ------------------------------------------------------------------

  /** `ls` of an existing directory is its entries' names in ascending order, one per line, each once. */
  lemma LsListsEntriesSorted(path: string, hist: seq<string>, w: World, env: Env)
    requires IsDir(w.files, path)
    ensures var r := Dispatch("ls", [path], hist, w, env);
      r.world == w &&
      exists names :: StrictlySorted(names) && Elems(names) == Children(w.files, path) && r.out == Join(names, "\n")
  {
    var names := SortedOf(Children(w.files, path));
    assert StrictlySorted(names) && Elems(names) == Children(w.files, path);
  }

  /** `ls` of a missing path is reported, not raised. */
  lemma LsMissingPath(path: string, hist: seq<string>, w: World, env: Env)
    requires path !in w.files
    ensures Dispatch("ls", [path], hist, w, env) == Reply("ls: cannot access '" + path + "': No such file or directory", w)
  {
  }

  /** `touch` keeps an existing file's content and creates an absent one empty. */
  lemma TouchCreatesOrKeeps(f: string, hist: seq<string>, w: World, env: Env)
    requires f != []
    ensures IsFile(w.files, f) ==> Dispatch("touch", [f], hist, w, env) == Reply("Created file " + f, w)
    ensures f !in w.files ==> Dispatch("touch", [f], hist, w, env) == Reply("Created file " + f, World(w.files[f := File("")], w.cwd))
  {
  }

  /** `mkdir` of an existing directory succeeds and changes nothing. */
  lemma MkdirExistingDirectory(d: string, hist: seq<string>, w: World, env: Env)
    requires d != [] && IsDir(w.files, d)
    ensures Dispatch("mkdir", [d], hist, w, env) == Reply("Created directory " + d, w)
  {
  }

  /** `vim f` answers the editor sentinel with the file's full content, creating the file empty when absent. */
  lemma VimOpensEditor(f: string, hist: seq<string>, w: World, env: Env)
    requires f != [] && !IsDir(w.files, f)
    ensures var r := Dispatch("vim", [f], hist, w, env);
      var content := if f in w.files then w.files[f].content else "";
      r.out == "__OPEN_EDITOR__::" + f + "::" + content &&
      r.world == World(if f in w.files then w.files else w.files[f := File("")], w.cwd)
  {
  }

  /** The save command decodes before it opens the file: a payload that does not decode leaves
      the filesystem untouched and the answer is an error. */
  lemma SaveDecodeFailureKeepsFile(args: seq<string>, hist: seq<string>, w: World, env: Env)
    requires |args| >= 2 && env.b64Decode(Join(args[1..], " ")).Failure?
    ensures var r := Dispatch("__save__", args, hist, w, env);
      r.world == w && "Error: " <= r.out
  {
  }

  /** A payload that decodes replaces the file's content wholesale with the decoded text. */
  lemma SaveOverwrites(args: seq<string>, text: string, hist: seq<string>, w: World, env: Env)
    requires |args| >= 2 && env.b64Decode(Join(args[1..], " ")) == Success(text)
    requires args[0] != [] && !IsDir(w.files, args[0])
    ensures Dispatch("__save__", args, hist, w, env) == Reply("Saved file " + args[0], World(w.files[args[0] := File(text)], w.cwd))
  {
  }

  /** `mv` of a directory onto an existing file fails with `FileExistsError` and changes nothing. */
  lemma MvDirectoryOntoFile(d: string, f: string, hist: seq<string>, w: World, env: Env)
    requires IsDir(w.files, d) && IsFile(w.files, f) && f != [] && !InTree(d, f)
    ensures Dispatch("mv", [d, f], hist, w, env) == Reply("mv: " + env.describe(FileExists(f)), w)
  {
  }

  /** `cat` of a missing file has its own message. */
  lemma CatMissingFile(f: string, hist: seq<string>, w: World, env: Env)
    requires f !in w.files
    ensures Dispatch("cat", [f], hist, w, env) == Reply("cat: " + f + ": No such file", w)
  {
  }

  /** `history` shows the last twenty lines of the history, oldest first: each of them appears in the answer. */
  lemma {:induction false} HistoryShowsRecentLines(hist: seq<string>, k: nat, args: seq<string>, w: World, env: Env)
    requires k < |hist| && |hist| - k <= 20
    ensures var r := Dispatch("history", args, hist, w, env);
      r.world == w && Occurs(hist[k], r.out)
  {
    var shown := LastN(hist, HistoryShown);
    assert shown[k - (|hist| - |shown|)] == hist[k];
    JoinContainsEach(shown, "\n", k - (|hist| - |shown|));
  }

  /** The `history` line itself is already recorded, so the answer ends with it. */
  lemma HistoryEndsWithItself(hist: seq<string>, line: string, args: seq<string>, w: World, env: Env)
    ensures var r := Dispatch("history", args, hist + [line], w, env);
      |line| <= |r.out| && r.out[|r.out| - |line|..] == line
  {
    var shown := LastN(hist + [line], HistoryShown);
    JoinEndsWithLast(shown, "\n");
  }

  /** `ps` lists at most fifteen processes: the first fifteen in enumeration order. */
  lemma {:induction false} PsShowsFirstFifteen(k: nat, hist: seq<string>, w: World, env: Env)
    requires k < |env.processes| && k < 15
    ensures var r := Dispatch("ps", [], hist, w, env);
      r.world == w && Occurs(FormatProcess(env.processes[k]), r.out)
  {
    var shown := Take(ProcessLines(env.processes), ProcessesShown);
    assert shown[k] == FormatProcess(env.processes[k]);
    JoinContainsEach(shown, "\n", k);
  }

  /** The process line shows the pid right-aligned in six columns, two spaces, then the name. */
  lemma ProcessLineLayout(p: ProcInfo)
    ensures var line := FormatProcess(p);
      |line| >= 8 + |p.name| && line[|line| - |p.name|..] == p.name &&
      line[|line| - |p.name| - 2..|line| - |p.name|] == "  "
  {
  }

  /** `clear` answers the clear-screen sentinel. */
  lemma ClearSentinel(args: seq<string>, hist: seq<string>, w: World, env: Env)
    ensures Dispatch("clear", args, hist, w, env) == Reply("__CLEAR_SCREEN__", w)
  {
  }

  /** Names outside the command list, compared exactly, go to an external process; its standard output
      is returned when non-empty, its standard error otherwise, and the host state is not touched. */
  lemma UnknownCommandRunsExternally(cmd: string, args: seq<string>, c: Completed, hist: seq<string>, w: World, env: Env)
    requires cmd !in FileCommands && cmd !in ViewCommands && cmd !in MonitorCommands
    requires cmd != "history" && cmd != "clear"
    requires env.run([cmd] + args) == Success(c)
    ensures Dispatch(cmd, args, hist, w, env) == Reply(if c.stdout != "" then c.stdout else c.stderr, w)
  {
  }

  // ------------------------------------------------------------------
  // Sequences of commands
  // ------------------------------------------------------------------

  /** `touch f` then `cat f` on an absent `f` gives the empty string. */
  lemma TouchThenCat(f: string, hist: seq<string>, w: World, env: Env)
    requires f != [] && f !in w.files
    ensures Dispatch("cat", [f], hist, Dispatch("touch", [f], hist, w, env).world, env).out == ""
  {
  }

  /** Opening a file in the editor, saving a payload that decodes to `text`, and reading the file back gives `text`. */
  lemma EditSaveRoundTrip(f: string, payload: string, text: string, hist: seq<string>, w: World, env: Env)
    requires f != [] && !IsDir(w.files, f)
    requires env.b64Decode(payload) == Success(text)
    ensures var edited := Dispatch("vim", [f], hist, w, env).world;
      var saved := Dispatch("__save__", [f, payload], hist, edited, env).world;
      Dispatch("cat", [f], hist, saved, env).out == text
  {
    assert [f, payload][1..] == [payload];
  }

  /** `mkdir x` then `rmdir x` restores the filesystem when nothing was at or below `x`. */
  lemma MkdirThenRmdir(x: string, hist: seq<string>, w: World, env: Env)
    requires x != [] && forall k :: k in w.files ==> !InTree(x, k)
    ensures Dispatch("rmdir", [x], hist, Dispatch("mkdir", [x], hist, w, env).world, env).world == w
  {
    var fs := w.files[x := Dir];
    assert !HasEntriesBelow(fs, x);
    assert fs - {x} == w.files;
  }
}
