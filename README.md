# Web Terminal: command processor and request logic

A browser terminal. The server receives one line per request and answers with one string.

The processor keeps a history of the lines it was given. It tokenises each line shell-style and runs the first token as a command:

- file and directory operations: `pwd`, `ls`, `cd`, `mkdir`, `rmdir`, `touch`, `rm`, `cp`, `mv`, `rename`;
- viewing and editing: `cat`, `vim`, `__save__`, `chmod`;
- monitoring: `cpu`, `mem`, `ps`;
- `history` and `clear`;
- any other name goes to an external process.

Errors come back as text and are never raised to the caller. Two answers are sentinels that the browser interprets:

- `__OPEN_EDITOR__::<file>::<content>` opens the editor;
- `__CLEAR_SCREEN__` clears the screen.

The save half of the editor protocol is the `__save__ <file> <base64>` command.

In front of the processor, the server handles each line in three steps:

1. It rejects blank input.
2. It answers `man` requests from a manual. With no argument it lists every entry; with an argument it looks one up.
3. It rewrites natural-language input: the first phrase, in mapping order, that occurs case-insensitively in the input replaces the whole line with its command.

A separate request offers completions: the distinct commands that start with the typed text, sorted, at most ten.

The project has six modules.

- `Strings`: the Python string operations the code relies on: `strip`, `split()`, `lower`, `in`, `join`, `str(n)`, right alignment, `xs[-n:]` and `xs[:n]`.
- `Ordering`: Python's string order, and sorting into distinct values (`sorted(set(...))`).
- `FileSystem`: the host.
  - The filesystem is a map from path to node (a file with content, or a directory).
  - The entries below a directory are the longer paths that start with the directory and one `/`. The root "/" supplies its own `/`, so "/x" is an entry of "/".
  - The `os`/`shutil` calls the processor makes are functions that return the new map or the error raised.
  - `HostOs` is the mutable host: the filesystem and the working directory.
- `Processor`:
  - `Dispatch` and `Respond` specify what one command does.
  - The `CommandProcessor` class holds the history. Its methods `ParseAndExecute`, `Execute` and the four section methods are proved to act as that specification says.
- `ProcessorFacts`: properties of the processor:
  - argument counts and which argument is used;
  - each handler's outcome;
  - sequences of commands (`touch` then `cat`, `vim` then `__save__` then `cat`, `mkdir` then `rmdir`).
- `Server`: `run_command` and `suggest_command`, with the `man` pages, the rewrite and the suggestion loops as methods proved against specification functions.

Library calls the code depends on but does not define are fields of the `Processor.Env` value:

- `shlex.split`;
- base64 decoding;
- `int(text, 8)`;
- `subprocess.run`;
- `str(e)`;
- the psutil readings.

A failure in any of these carries the exception's text.

Three behaviours differ from what a reader of the interface might expect; the model follows the code:

- The history records the line after the natural-language rewrite (`server.py` rewrites before calling `parse_and_execute`), not the line the user typed.
- `__save__` is an ordinary command that a user can type.
- A `man` request is any stripped input that starts with the letters `man`. This includes words such as `manual` or `mandb`; a single such word lists the whole manual.

## Model

| member | source | states |
|---|---|---|
| Strings.Strip | command_processor.py:14 | The result has no whitespace at either end, and lies between a leading and a trailing run of whitespace of the input. |
| Strings.StripTrimmed | command_processor.py:14 | A string without whitespace at its ends strips to itself. |
| Strings.StripIdempotent | server.py:39 | Stripping twice is stripping once, so the line `parse_and_execute` strips again is unchanged. |
| Strings.StripEmpty | command_processor.py:15 | A line strips to empty exactly when it is all whitespace. |
| Strings.Lower | server.py:67 | Lower-casing keeps the length and maps each character on its own. |
| Strings.Contains | server.py:67 | The search answers true exactly when the phrase occurs in the text at some position. |
| Strings.Join | command_processor.py:32 | `sep.join(xs)`: the elements with the separator between neighbours. It has no contract of its own; its properties are the three rows below. |
| Strings.JoinContainsEach | command_processor.py:164 | Every element of a joined list appears in full in the joined text. |
| Strings.JoinEndsWithLast | command_processor.py:164 | A non-empty join ends with its last element. |
| Strings.Words | server.py:48 | `str.split()`: the maximal runs of non-whitespace, in order. It has no contract of its own; the five lemmas below state what it gives. |
| Strings.WordsAreWhitespaceFree | server.py:48 | `split()` gives non-empty words without whitespace. |
| Strings.WordsOfWord | server.py:48-49 | A string without whitespace splits into itself alone. |
| Strings.WordsOfTwo | server.py:48-55 | A word, whitespace and a second word split into exactly those two words. |
| Strings.WordsOfTwoThen | server.py:48-55 | A word, whitespace, and a second word that ends the text or is followed by whitespace: the split starts with those two words, then splits the rest. |
| Strings.WordsOfWordThen | server.py:48 | A word that ends the text or is followed by whitespace is the first word of the split. |
| Strings.WordsAfterWord | server.py:48 | A leading word followed by whitespace is the first word of the split. |
| Strings.WordsAfterSpace | server.py:48 | Leading whitespace before a single word yields just that word. |
| Strings.NatToString | command_processor.py:153 | Decimal rendering uses only digits and has no leading zero except for 0. |
| Strings.NatToStringRoundTrip | command_processor.py:153 | Reading the rendered digits back gives the number. |
| Strings.PadLeft | command_processor.py:157 | Right alignment gives width `max(w, len)`, ends with the text, and pads with spaces. |
| Strings.LastN | command_processor.py:164 | `xs[-n:]` for a positive n (here `history[-20:]`) has `min(n, len)` elements: the last ones, in order. |
| Strings.Take | command_processor.py:158 | `xs[:n]` has `min(n, len)` elements and is a prefix. |
| Ordering.LessIrreflexive | command_processor.py:32 | No string sorts before itself. |
| Ordering.LessTransitive | server.py:92 | String order is transitive. |
| Ordering.LessTotal | server.py:92 | Of two distinct strings, one sorts before the other. |
| Ordering.LessAsymmetric | server.py:92 | Two strings never sort before each other. |
| Ordering.Insert | server.py:92 | Inserting into a sorted list of distinct values keeps it sorted and adds exactly the new value. |
| Ordering.SortUnique | server.py:92 | `sorted(set(xs))` is strictly increasing and holds exactly the values of `xs`. |
| Ordering.SortedUnique | server.py:92 | Two strictly increasing lists with the same values are equal, so the sorted answer is unique. |
| Ordering.SortedExists | command_processor.py:32 | Every finite set of strings has a strictly increasing listing. |
| Ordering.SortedOf | command_processor.py:32 | `sorted` of a set of names: strictly increasing, holding exactly that set. |
| Ordering.SortUniqueIsSortedOf | command_processor.py:32 | Sorting a listing gives the one sorted listing of its set of names. |
| FileSystem.BaseName | command_processor.py:89 | `os.path.basename`: a suffix of the path with no `/`, preceded by `/` when it is not the whole path. |
| FileSystem.RootChild | command_processor.py:32 | An entry "/name" is a direct entry of the root: `listdir("/")` lists `name`, and "/" is not empty for `rmdir` or `rename`. |
| FileSystem.JoinPath | command_processor.py:89 | `os.path.join(d, name)` for a name without `/`, the only kind `Destination` passes (a base name). The result is the name alone for an empty d; otherwise d, exactly one `/`, and the name. Its property is the row below. |
| FileSystem.JoinPathBaseName | command_processor.py:80 | A name without `/` joined onto a directory is the base name of the result, so `cp f d` and `mv f d` keep f's name. |
| FileSystem.ChangeDir | command_processor.py:37 | Changing directory succeeds exactly on an existing directory. |
| FileSystem.MakeDirs | command_processor.py:45 | `makedirs(exist_ok=True)` succeeds exactly when the path is non-empty and not a file. It adds the directory, and leaves an existing directory unchanged. |
| FileSystem.RemoveDir | command_processor.py:51 | `rmdir` succeeds exactly on an empty existing directory, and removes just that path. |
| FileSystem.OpenAppend | command_processor.py:58 | Opening for append succeeds exactly when the path is non-empty and not a directory. It keeps an existing file and creates an absent one empty. |
| FileSystem.ReadFile | command_processor.py:110-113 | Reading succeeds exactly on a file and gives its content. A missing path is `FileNotFoundError`. |
| FileSystem.WriteFile | command_processor.py:132-133 | Writing succeeds exactly when the path is non-empty and not a directory, and replaces the whole content. |
| FileSystem.Remove | command_processor.py:68 | `os.remove` succeeds exactly on a file and removes just that path. |
| FileSystem.RemoveTree | command_processor.py:65-66 | `rmtree` removes the directory and everything below it; every other entry stays with its node unchanged. |
| FileSystem.CopyTree | command_processor.py:77-78 | `copytree(dirs_exist_ok=True)` succeeds exactly when the destination is non-empty, not a file, and no source entry clashes with what already sits at its place. A clash is a directory on a file, a file on a directory, or a file on itself. The model counts a file on a directory as a clash, although `copytree` copies such a file into that directory (see "## Left out"). On success the result holds exactly the old entries and the rebased source entries: the rebased entries carry the source nodes, and every old entry that no rebased entry hits is kept. |
| FileSystem.CopyFile | command_processor.py:80 | `copy2` succeeds exactly when the source is a file and its destination is non-empty, not the source itself and not a directory. The destination is dst, or dst joined with the base name when dst is a directory. The file's node is copied there and nothing else changes. A missing source is `FileNotFoundError`. |
| FileSystem.Relocate | command_processor.py:89 | The moved tree reappears at the rebased paths. Every entry outside both trees is kept. Nothing else is present, and nothing is left under the old path unless it lies under the new one. |
| FileSystem.RelocateSelf | command_processor.py:89 | Moving a tree onto itself (`os.rename(f, f)`) leaves the filesystem unchanged. |
| FileSystem.Move | command_processor.py:89 | `shutil.move` checks a destination directory before it looks at the source. Moving a directory or a file onto itself changes nothing. A destination directory that already holds the name fails with "already exists", even when the source is missing; otherwise a missing source is `FileNotFoundError`. An empty target is `FileNotFoundError`. It also fails when a directory would move into its own tree, and (`FileExistsError`) when a directory would land on a file. It fails in no other case, and on success the source tree is relocated. |
| FileSystem.Rename | command_processor.py:97 | `os.rename` succeeds exactly when the source exists, the target is non-empty, a directory does not go into its own tree, an existing target is of the same kind as the source, and an existing target directory other than the source is empty. It then relocates the tree. A missing source is `FileNotFoundError`, and renaming a directory into its own tree is `EINVAL`. |
| FileSystem.Chmod | command_processor.py:141 | `chmod` fails exactly when the path does not exist. |
| FileSystem.HostOs.ListDir | command_processor.py:32 | `listdir` returns exactly the names of the directory's direct entries, each once. |
| Processor.Dispatch | command_processor.py:26-171 | The command chain: exact match on the name, first match wins, and anything else goes to an external process. Only the file and editing commands can change the host. |
| Processor.Respond | command_processor.py:19-21 | Tokenise, then dispatch the first token; a tokeniser error or an empty token list is reported. The host changes only when the line tokenises and its first token is a file or editing command. |
| Processor.ListProcesses | command_processor.py:154-157 | One line per process, in enumeration order: the pid right-aligned in six columns, two spaces, then the name. |
| Processor.CommandProcessor.constructor | command_processor.py:9-10 | A new session has an empty history. |
| Processor.CommandProcessor.ParseAndExecute | command_processor.py:12-21 | A blank line answers "" and changes nothing. Any other line appends its stripped form to the history, then answers and changes the host as `Respond` specifies for that history. |
| Processor.CommandProcessor.Execute | command_processor.py:19-21 | Tokenising then dispatching answers as `Respond` specifies. A tokeniser error or an empty token list becomes an "Error: " answer. |
| Processor.CommandProcessor.FileCommand | command_processor.py:26-100 | The file and directory commands answer and change the host as `Dispatch` specifies. |
| Processor.CommandProcessor.ViewCommand | command_processor.py:105-144 | `cat`, `vim`, `__save__` and `chmod` answer and change the host as `Dispatch` specifies. |
| Processor.CommandProcessor.MonitorCommand | command_processor.py:149-158 | `cpu`, `mem` and `ps` answer as `Dispatch` specifies and read only the metrics. |
| Processor.CommandProcessor.OtherCommand | command_processor.py:163-171 | `history`, `clear` and the external-process fallback answer as `Dispatch` specifies. |
| ProcessorFacts.OneOperandRequired | command_processor.py:33-35 | `cd`, `mkdir`, `rmdir`, `touch`, `rm` and `cat` without operands answer "<cmd>: missing operand" and change nothing. |
| ProcessorFacts.TwoOperandsRequired | command_processor.py:72-74 | `cp`, `mv`, `rename` and `chmod` with fewer than two operands answer "<cmd>: missing operand" and change nothing. |
| ProcessorFacts.EditorOperandsRequired | command_processor.py:117-129 | `vim` without a file and `__save__` with fewer than two operands have their own messages and change nothing. |
| ProcessorFacts.LsUsesLastArgument | command_processor.py:29 | `ls` acts on its last argument, or on "." without one. |
| ProcessorFacts.RmUsesLastArgument | command_processor.py:63 | `rm` removes only its last argument. |
| ProcessorFacts.ExtraOperandIgnored | command_processor.py:37 | The one-operand commands ignore operands after the first. |
| ProcessorFacts.ExtraOperandsIgnored | command_processor.py:75 | The two-operand commands ignore operands after the second. |
| ProcessorFacts.LsListsEntriesSorted | command_processor.py:28-32 | `ls` of a directory lists each direct entry's name exactly once, in ascending order, one per line, and changes nothing. |
| ProcessorFacts.LsMissingPath | command_processor.py:30-31 | `ls` of a missing path gives the "cannot access" message instead of raising. |
| ProcessorFacts.TouchCreatesOrKeeps | command_processor.py:55-59 | `touch` keeps an existing file's content and creates an absent file empty. |
| ProcessorFacts.MkdirExistingDirectory | command_processor.py:41-46 | `mkdir` of an existing directory reports success and changes nothing. |
| ProcessorFacts.VimOpensEditor | command_processor.py:117-125 | `vim f` answers the editor sentinel with f's full content, creating f empty when it is absent. |
| ProcessorFacts.SaveDecodeFailureKeepsFile | command_processor.py:127-134 | A payload that does not decode leaves the filesystem untouched and answers an "Error: " message. |
| ProcessorFacts.SaveOverwrites | command_processor.py:130-134 | A payload that decodes replaces the file's whole content with the decoded text. |
| ProcessorFacts.MvDirectoryOntoFile | command_processor.py:84-92 | `mv <dir> <file>` answers "mv: " with the `FileExistsError` text and changes nothing. |
| ProcessorFacts.CatMissingFile | command_processor.py:112-113 | `cat` of a missing file answers "cat: f: No such file". |
| ProcessorFacts.HistoryShowsRecentLines | command_processor.py:163-164 | Each of the last twenty history lines appears in the `history` answer, and nothing changes. |
| ProcessorFacts.HistoryEndsWithItself | command_processor.py:17 | The `history` line is recorded before it runs, so the answer ends with it. |
| ProcessorFacts.PsShowsFirstFifteen | command_processor.py:154-158 | Each of the first fifteen processes appears in the `ps` answer, formatted. |
| ProcessorFacts.ProcessLineLayout | command_processor.py:157 | A process line ends with the name, preceded by two spaces and a field of at least six columns. |
| ProcessorFacts.ClearSentinel | command_processor.py:165-166 | `clear` answers the clear-screen sentinel whatever its arguments. |
| ProcessorFacts.UnknownCommandRunsExternally | command_processor.py:169-171 | Any other name runs an external process with all tokens. It answers that process's standard output, or its standard error when the output is empty, and leaves the host untouched. |
| ProcessorFacts.TouchThenCat | command_processor.py:55-59 | `touch f` then `cat f` on an absent f reads "". |
| ProcessorFacts.EditSaveRoundTrip | command_processor.py:117-134 | Opening f in the editor, saving a payload that decodes to t, then `cat f` reads t. |
| ProcessorFacts.MkdirThenRmdir | command_processor.py:41-54 | `mkdir x` then `rmdir x` restores the filesystem when nothing was at or below x. |
| Server.ManBlocks | server.py:51-52 | There is one listing block per manual entry. |
| Server.ManListing | server.py:49-53 | The listing is the blocks of all entries, in manual order, joined by newlines. |
| Server.ManListingHasEveryEntry | server.py:49-53 | Every manual entry's block appears in the listing. |
| Server.ManLookup | server.py:56-58 | The lookup fails exactly when no entry has the name, and otherwise returns an entry of that name. |
| Server.ManPage | server.py:48-61 | What a `man` request answers: the listing for one word, otherwise the entry named by the stripped second word or the missing-entry text. It has no contract of its own; ManCommand and the two lemmas below state it. |
| Server.ManCommand | server.py:47-61 | A `man` request answers the listing for a single word, and otherwise the entry named by the second word or the "No manual entry" message. |
| Server.ManSingleWordListsAll | server.py:48-53 | A single word starting with "man" (e.g. "manual") lists the whole manual. |
| Server.ManLooksUpSecondWord | server.py:54-61 | For a first word starting with "man" (so "manual" too), followed by whitespace and a second word: the answer is that word's description and usage, or "No manual entry for '<word>'" when it has none. Any later words are ignored. |
| Server.ManPageLooksUp | server.py:54-61 | With two or more words, the page is the lookup of the stripped second word. |
| Server.NlRewrite | server.py:66-69 | The rewritten line is the input itself or the command of a phrase that occurs in it, ignoring case. |
| Server.NlRewriteNoHit | server.py:66-69 | Input containing no phrase goes through unchanged. |
| Server.NlRewriteFirstHit | server.py:66-69 | The first phrase in mapping order that occurs, ignoring case, decides the command, whatever later phrases also occur. |
| Server.Rewrite | server.py:66-69 | The loop yields the input or the command of one phrase, as the rewrite specifies. |
| Server.Filter | server.py:88-90 | The matches in one category are exactly its commands that start with the typed text. |
| Server.MatchList | server.py:87-90 | The matches of every category, in loop order; every one starts with the typed text. |
| Server.MatchListMembers | server.py:86-90 | The collected suggestions are exactly the listed commands that start with the typed text. |
| Server.CollectMatches | server.py:84-90 | The nested loops collect every match, category by category, in order. |
| Server.FirstOfSorted | server.py:92 | The first n of a sorted list are sorted. Anything they leave out sorts after all of them, and then there are exactly n. |
| Server.Suggest | server.py:81-93 | Blank typed text gives none. Otherwise the result is strictly sorted, at most ten long, and each entry is a listed command starting with the stripped, lower-cased text. Every omitted match sorts after all ten shown. |
| Server.RunCommand | server.py:37-77 | Blank input answers "No command provided" and a `man` request answers its page, both changing nothing. Any other input is rewritten, and the stripped result is recorded and run. When no phrase hits, the history gains the stripped input itself. |

## Left out

- The HTTP and JSON transport, the index page, and the startup loading of the three JSON files are not modelled. The mappings are passed in as key/value sequences in file order. A missing `command` or `typed` field reads as the empty string, which the model takes as its input.
- The `cwd` that each answer reports is `HostOs.cwd`; the JSON wrapping it is not modelled.
- `shlex.split`, base64 and UTF-8 decoding, `int(text, 8)`, `subprocess.run` and the text of an exception (`str(e)`) are opaque parameters. Their own behaviour is not modelled.
- The psutil readings are parameters. The CPU and memory percentages are floats and are kept as already-printed text. The one-second sampling wait of `cpu_percent` is not modelled.
- Processes that vanish while `ps` iterates are not modelled.
- The filesystem is flat and literal:
  - paths are compared as strings, with no normalisation, no relative resolution against the working directory, and no symbolic links;
  - "." is an ordinary key;
  - a path's parent need not exist, so `makedirs` does not create intermediate directories;
  - a path's parent need not exist or be a directory, so no `FileNotFoundError` or `NotADirectoryError` arises for a path below a missing directory or below a file. After `touch f`, `touch f/x` answers "Created file f/x" where Python reports "Not a directory". The same holds for `cat`, `vim`, `__save__`, `mkdir`, `cp`, `mv` and `rename`.
- Permission bits are not stored. `chmod` only checks the octal text and that the path exists.
- Access-denied and other operating-system errors outside those listed in `OsError` are not modelled.
- FileSystem.HostOs.ListDir: `os.listdir` order is arbitrary. The method's answer is a list whose order is unspecified; the `ls` answer is sorted.
- `cd` sets the working directory to its argument as written, and the message uses it. The source prints the absolute path `os.getcwd()`.
- Copying a directory into its own subtree is not modelled exactly. `copytree` lists each directory before copying it, so it terminates. But whether a partial copy made inside a subdirectory is listed again depends on the order `scandir` returns entries. The model places copies of only the entries present before the call. Moving or renaming a directory into its own subtree is modelled as a failure.
- FileSystem.CopyTree: a source file that lands on an existing directory counts as a clash, so the model fails where `copytree` succeeds. `copytree` hands such a file to `copy2`, which copies it into that directory under its base name; `cp d e` with a file `d/x` and a directory `e/x` answers "Copied d -> e" and creates `e/x/x`. The model answers with the `CopyErrors` text and changes nothing.
- FileSystem.CopyTree: when some entry clashes, `copytree` still copies every other entry, then raises `shutil.Error` listing the failures. The model reports the failure (`CopyErrors`) and leaves the filesystem unchanged, so the partial copy is not modelled.
- `ls` on a path that exists but is not a directory raises inside `os.listdir`. The model gives that case the outer "Error: " answer with opaque text.
- Strings.Lower maps only ASCII letters. Python's full Unicode case mapping, including characters whose lower case has a different length, is not modelled.
- Python raises `IndexError` when `man` input splits into no words. That cannot happen after the guard, since the input starts with "man", so the model has no such branch.
- The manual, phrase and suggestion mappings are dicts, so their keys are distinct. The model takes the first entry with a key, which is then the only one.
- Process-wide effects (concurrent requests sharing one processor and one working directory) are not modelled. Requests are handled one at a time.
- terminal.py (the command-line front end) is not part of this model.
