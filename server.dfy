/** The request-side text logic of server.py: the empty-input guard, the `man`
    pages, the natural-language rewrite, and the suggestion index. The three
    JSON mappings are passed in as sequences of key/value pairs in file order
    (the iteration order of the loaded dicts, whose keys are distinct). */
module Server {
  import opened Wrappers
  import opened Strings
  import opened Ordering
  import opened FileSystem
  import opened Processor

  datatype ManEntry = ManEntry(description: string, usage: string)

  const NoCommand := "No command provided"
  const SuggestionsShown: nat := 10

  // ------------------------------------------------------------------
  // man
  // ------------------------------------------------------------------

  /** One entry of the full listing. */
  function ManBlock(cmd: string, e: ManEntry): string {
    cmd + ":\n  " + e.description + "\n  Usage: " + e.usage + "\n"
  }

  function ManBlocks(manual: seq<(string, ManEntry)>): (blocks: seq<string>)
    ensures |blocks| == |manual|
    ensures forall i :: 0 <= i < |manual| ==> blocks[i] == ManBlock(manual[i].0, manual[i].1)
  {
    seq(|manual|, i requires 0 <= i < |manual| => ManBlock(manual[i].0, manual[i].1))
  }

  /** `man` with no argument: every entry, in mapping order, separated by blank lines. */
  method ManListing(manual: seq<(string, ManEntry)>) returns (out: string)
    ensures out == Join(ManBlocks(manual), "\n")
  {
    var outputLines: seq<string> := [];
    for i := 0 to |manual|
      invariant outputLines == ManBlocks(manual[..i])
    {
      outputLines := outputLines + [ManBlock(manual[i].0, manual[i].1)];
    }
    assert manual[..|manual|] == manual;
    out := Join(outputLines, "\n");
  }

  /** `command_manual[cmd]` when `cmd in command_manual`. */
  function ManLookup(manual: seq<(string, ManEntry)>, cmd: string): (r: Option<ManEntry>)
    ensures r.None? <==> forall i :: 0 <= i < |manual| ==> manual[i].0 != cmd
    ensures r.Some? ==> exists i :: 0 <= i < |manual| && manual[i] == (cmd, r.value)
  {
    if manual == [] then None
    else if manual[0].0 == cmd then Some(manual[0].1)
    else
      var r := ManLookup(manual[1..], cmd);
      assert forall i :: 0 < i < |manual| ==> manual[i] == manual[1..][i - 1];
      r
  }

  /** The answer to a `man` request (`input` is the stripped request, which starts with "man"). */
  function ManPage(input: string, manual: seq<(string, ManEntry)>): string
    requires "man" <= input
  {
    WordsUnfold(input);
    var parts := Words(input);
    if |parts| == 1 then Join(ManBlocks(manual), "\n")
    else
      var cmd := Strip(parts[1]);
      match ManLookup(manual, cmd)
      case Some(e) => cmd + ":\n" + e.description + "\nUsage:\n" + e.usage
      case None => "No manual entry for '" + cmd + "'"
  }

  method ManCommand(input: string, manual: seq<(string, ManEntry)>) returns (out: string)
    requires "man" <= input
    ensures out == ManPage(input, manual)
  {
    WordsUnfold(input);
    var parts := Words(input);
    if |parts| == 1 {
      out := ManListing(manual);
    } else {
      var cmd := Strip(parts[1]);
      var entry := ManLookup(manual, cmd);
      if entry.Some? {
        out := cmd + ":\n" + entry.value.description + "\nUsage:\n" + entry.value.usage;
      } else {
        out := "No manual entry for '" + cmd + "'";
      }
    }
  }

  /** A single word starting with "man" (so "manual" too) lists every manual entry. */
  lemma ManSingleWordListsAll(input: string, manual: seq<(string, ManEntry)>)
    requires "man" <= input && forall i :: 0 <= i < |input| ==> !IsSpace(input[i])
    ensures ManPage(input, manual) == Join(ManBlocks(manual), "\n")
  {
    WordsOfWord(input);
  }

  /** A first word starting with "man", whitespace, then `cmd`: `cmd` is looked up and a
      missing entry is reported by name, whatever words follow it ("man ls -l", "manual ls"). */
  lemma ManLooksUpSecondWord(w: string, gap: string, cmd: string, tail: string, manual: seq<(string, ManEntry)>)
    requires "man" <= w && forall i :: 0 <= i < |w| ==> !IsSpace(w[i])
    requires gap != [] && AllSpace(gap)
    requires cmd != [] && forall i :: 0 <= i < |cmd| ==> !IsSpace(cmd[i])
    requires tail == [] || IsSpace(tail[0])
    ensures var page := ManPage(w + gap + cmd + tail, manual);
      && (ManLookup(manual, cmd).None? ==> page == "No manual entry for '" + cmd + "'")
      && (ManLookup(manual, cmd).Some? ==> var e := ManLookup(manual, cmd).value;
            page == cmd + ":\n" + e.description + "\nUsage:\n" + e.usage)
  {
    var input := w + gap + cmd + tail;
    ConcatAssoc4(w, gap, cmd, tail);
    PrefixOfConcat("man", w, gap + (cmd + tail));
    WordsOfTwoThen(w, gap, cmd, tail);
    assert Strip(cmd) == cmd by {
      assert !IsSpace(cmd[0]) && !IsSpace(cmd[|cmd| - 1]);
      StripTrimmed(cmd);
    }
    ManPageLooksUp(input, manual);
  }

  /** With two or more words, the page is the lookup of the stripped second word. */
  lemma ManPageLooksUp(input: string, manual: seq<(string, ManEntry)>)
    requires "man" <= input && |Words(input)| >= 2
    ensures var cmd := Strip(Words(input)[1]); var page := ManPage(input, manual);
      && (ManLookup(manual, cmd).None? ==> page == "No manual entry for '" + cmd + "'")
      && (ManLookup(manual, cmd).Some? ==> var e := ManLookup(manual, cmd).value;
            page == cmd + ":\n" + e.description + "\nUsage:\n" + e.usage)
  {
  }

  /** The full listing contains every entry's block. */
  lemma ManListingHasEveryEntry(manual: seq<(string, ManEntry)>, k: nat)
    requires k < |manual|
    ensures Occurs(ManBlock(manual[k].0, manual[k].1), Join(ManBlocks(manual), "\n"))
  {
    JoinContainsEach(ManBlocks(manual), "\n", k);
  }

  // ------------------------------------------------------------------
  // Natural-language rewrite
  // ------------------------------------------------------------------

  /** `phrase.lower() in user_input.lower()`. */
  predicate Hits(input: string, phrase: string) {
    Contains(Lower(input), Lower(phrase))
  }

  /** The input replaced by the command of the first phrase it contains, if any. */
  function NlRewrite(input: string, phrases: seq<(string, string)>): (r: string)
    ensures r == input || exists j :: 0 <= j < |phrases| && Hits(input, phrases[j].0) && r == phrases[j].1
  {
    if phrases == [] then input
    else if Hits(input, phrases[0].0) then phrases[0].1
    else
      var r := NlRewrite(input, phrases[1..]);
      assert forall j :: 0 <= j < |phrases| - 1 ==> phrases[1..][j] == phrases[j + 1];
      r
  }

  /** When no phrase occurs in the input, the input goes through unchanged. */
  lemma {:induction false} NlRewriteNoHit(input: string, phrases: seq<(string, string)>)
    requires forall i :: 0 <= i < |phrases| ==> !Hits(input, phrases[i].0)
    ensures NlRewrite(input, phrases) == input
  {
    if phrases != [] {
      assert !Hits(input, phrases[0].0);
      assert forall i :: 0 <= i < |phrases| - 1 ==> phrases[1..][i] == phrases[i + 1];
      NlRewriteNoHit(input, phrases[1..]);
    }
  }

  /** The first phrase in mapping order that occurs in the input decides the command,
      whatever later phrases also occur. */
  lemma {:induction false} NlRewriteFirstHit(input: string, phrases: seq<(string, string)>, j: nat)
    requires j < |phrases| && Hits(input, phrases[j].0)
    requires forall i :: 0 <= i < j ==> !Hits(input, phrases[i].0)
    ensures NlRewrite(input, phrases) == phrases[j].1
  {
    if j > 0 {
      assert !Hits(input, phrases[0].0);
      assert forall i :: 0 <= i < j - 1 ==> phrases[1..][i] == phrases[i + 1];
      NlRewriteFirstHit(input, phrases[1..], j - 1);
    }
  }

  /** The rewrite loop: scan the phrases in order and stop at the first hit. */
  method Rewrite(input: string, phrases: seq<(string, string)>) returns (out: string)
    ensures out == NlRewrite(input, phrases)
    ensures out == input || exists j :: 0 <= j < |phrases| && out == phrases[j].1
  {
    out := input;
    var i := 0;
    while i < |phrases|
      invariant 0 <= i <= |phrases|
      invariant NlRewrite(input, phrases) == NlRewrite(input, phrases[i..])
    {
      var phrase := phrases[i].0;
      if Contains(Lower(input), Lower(phrase)) {
        out := phrases[i].1;
        break;
      }
      assert phrases[i..][1..] == phrases[i + 1..];
      i := i + 1;
    }
  }

  // ------------------------------------------------------------------
  // Suggestions
  // ------------------------------------------------------------------

  /** `s` is listed in some category. */
  ghost predicate IsCandidate(categories: seq<(string, seq<string>)>, s: string) {
    exists i :: 0 <= i < |categories| && s in categories[i].1
  }

  /** The candidates of `cmds` that start with `t`, in order. */
  function Filter(cmds: seq<string>, t: string): (r: seq<string>)
    ensures forall s :: s in r <==> s in cmds && t <= s
  {
    if cmds == [] then []
    else Filter(cmds[..|cmds| - 1], t) + (if t <= cmds[|cmds| - 1] then [cmds[|cmds| - 1]] else [])
  }

  /** The matching candidates of every category, in the order the nested loops meet them. */
  function MatchList(categories: seq<(string, seq<string>)>, t: string): (r: seq<string>)
    ensures forall s :: s in r ==> t <= s
  {
    if categories == [] then []
    else MatchList(categories[..|categories| - 1], t) + Filter(categories[|categories| - 1].1, t)
  }

  lemma {:induction false} MatchListMembers(categories: seq<(string, seq<string>)>, t: string)
    ensures forall s :: s in MatchList(categories, t) <==> IsCandidate(categories, s) && t <= s
  {
    if categories != [] {
      var init := categories[..|categories| - 1];
      MatchListMembers(init, t);
      forall s ensures s in MatchList(categories, t) <==> IsCandidate(categories, s) && t <= s {
        if IsCandidate(categories, s) && t <= s {
          var i :| 0 <= i < |categories| && s in categories[i].1;
          if i < |categories| - 1 {
            assert s in init[i].1;
          }
        }
        if s in MatchList(init, t) {
          var i :| 0 <= i < |init| && s in init[i].1;
          assert s in categories[i].1;
        }
      }
    }
  }

  /** The nested loops of `suggest_command`: every candidate starting with `typed`, in order. */
  method CollectMatches(typed: string, categories: seq<(string, seq<string>)>) returns (suggestions: seq<string>)
    ensures suggestions == MatchList(categories, typed)
  {
    suggestions := [];
    for i := 0 to |categories|
      invariant suggestions == MatchList(categories[..i], typed)
    {
      var cmds := categories[i].1;
      for j := 0 to |cmds|
        invariant suggestions == MatchList(categories[..i], typed) + Filter(cmds[..j], typed)
      {
        if typed <= cmds[j] {
          suggestions := suggestions + [cmds[j]];
        }
        assert cmds[..j + 1][..j] == cmds[..j];
      }
      assert cmds[..|cmds|] == cmds;
      assert categories[..i + 1][..i] == categories[..i];
    }
    assert categories[..|categories|] == categories;
  }

  /** `suggest_command`: the first ten, in sorted order, of the distinct candidates that start
      with the stripped, lower-cased typed text; nothing for blank text. */
  method Suggest(typedRaw: string, categories: seq<(string, seq<string>)>) returns (r: seq<string>)
    ensures var t := Lower(Strip(typedRaw));
      && (t == [] ==> r == [])
      && StrictlySorted(r) && |r| <= SuggestionsShown
      && (forall s :: s in r ==> t <= s && IsCandidate(categories, s))
      && (t != [] ==> forall s :: IsCandidate(categories, s) && t <= s && s !in r ==>
            |r| == SuggestionsShown && forall q :: q in r ==> Less(q, s))
  {
    var typed := Lower(Strip(typedRaw));
    var suggestions: seq<string> := [];
    if typed != [] {
      suggestions := CollectMatches(typed, categories);
      MatchListMembers(categories, typed);
    }
    var all := SortUnique(suggestions);
    r := Take(all, SuggestionsShown);
    FirstOfSorted(all, SuggestionsShown);
  }

  /** The first `n` of a strictly sorted sequence are sorted, and whatever they leave out
      is larger than each of them and leaves no room. */
  lemma FirstOfSorted(all: seq<string>, n: nat)
    requires StrictlySorted(all)
    ensures var r := Take(all, n);
      && StrictlySorted(r)
      && (forall s :: s in r ==> s in Elems(all))
      && (forall s :: s in Elems(all) && s !in r ==> |r| == n && forall q :: q in r ==> Less(q, s))
  {
    var r := Take(all, n);
    assert forall k :: 0 <= k < |r| ==> r[k] == all[k];
    forall s | s in Elems(all) && s !in r
      ensures |r| == n && forall q :: q in r ==> Less(q, s)
    {
      var p :| 0 <= p < |all| && all[p] == s;
      assert p >= |r|;
    }
  }

  // ------------------------------------------------------------------
  // The /run request
  // ------------------------------------------------------------------

  /** `run_command`: guard against blank input, answer `man` requests from the manual, and
      otherwise rewrite the input and hand it to the session's command processor. */
  method RunCommand(command: string, manual: seq<(string, ManEntry)>, phrases: seq<(string, string)>,
                    cp: CommandProcessor, os: HostOs, env: Env) returns (output: string)
    modifies cp, os
    ensures var input := Strip(command);
      input == [] || "man" <= input ==> cp.history == old(cp.history) && os.files == old(os.files) && os.cwd == old(os.cwd)
    ensures Strip(command) == [] ==> output == NoCommand
    ensures var input := Strip(command);
      input != [] && "man" <= input ==> output == ManPage(input, manual)
    ensures var input := Strip(command); var line := Strip(NlRewrite(input, phrases));
      input != [] && !("man" <= input) ==>
        && (line == [] ==> output == "" && cp.history == old(cp.history) && os.files == old(os.files) && os.cwd == old(os.cwd))
        && (line != [] ==>
              && cp.history == old(cp.history) + [line]
              && Reply(output, World(os.files, os.cwd)) == Respond(line, cp.history, old(World(os.files, os.cwd)), env))
    ensures var input := Strip(command);
      input != [] && !("man" <= input) && (forall i :: 0 <= i < |phrases| ==> !Hits(input, phrases[i].0)) ==>
        cp.history == old(cp.history) + [input]
  {
    var userInput := Strip(command);
    if userInput == [] {
      return NoCommand;
    }
    if "man" <= userInput {
      output := ManCommand(userInput, manual);
      return;
    }
    if forall i :: 0 <= i < |phrases| ==> !Hits(userInput, phrases[i].0) {
      NlRewriteNoHit(userInput, phrases);
    }
    StripIdempotent(command);
    userInput := Rewrite(userInput, phrases);
    output := cp.ParseAndExecute(userInput, os, env);
  }
}
