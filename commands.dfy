/** Slash commands: a line starting with `/` is split into a command name
    and its arguments and handed to the registered handler; the completer
    offers the registered names matching what has been typed. The handlers
    modelled are those that change state: `/system`, `/clear_history`,
    `/edit_mode` and `/search`. */
module Commands {
  import opened Wrappers
  import opened Text
  import opened Session

  // ---------------------------------------------------------------------
  // The registry

  /** `get_commands()`: name and description, in registry order. */
  function CommandTable(): seq<(string, string)>
  {
    [ ("quit", "Exit the chat application"),
      ("help", "Show available commands"),
      ("system", "View or set system prompt"),
      ("models", "List available models (* = current)"),
      ("model", "Switch to specified model"),
      ("clear_history", "Clear conversation history"),
      ("show_history", "Print conversation history"),
      ("edit_mode", "Switch between vi/emacs editing mode"),
      ("search", "Toggle internet search on and off") ]
  }

  function CommandNames(): (names: seq<string>)
    ensures |names| == |CommandTable()|
    ensures forall i :: 0 <= i < |names| ==> names[i] == CommandTable()[i].0
  {
    seq(|CommandTable()|, i requires 0 <= i < |CommandTable()| => CommandTable()[i].0)
  }

  // ---------------------------------------------------------------------
  // `CommandProcessor.execute`: parsing

  /** How `execute` reads a line. `Blank` is a `/` followed by whitespace
      only: `parts[0]` then raises `IndexError`, outside the `try`. */
  datatype Parsed = NotCommand | Blank | Known(name: string, args: seq<string>) | Unknown(name: string)

  function Parse(line: string, names: seq<string>): Parsed
  {
    if !StartsWith(line, "/") then NotCommand
    else
      var parts := SplitWhitespace(line[1..]);
      if parts == [] then Blank
      else if parts[0] in names then Known(parts[0], parts[1..])
      else Unknown(parts[0])
  }

  /** `split()` finds no token exactly when the text is all whitespace. */
  lemma {:induction false} SplitWhitespaceEmpty(s: string)
    ensures SplitWhitespace(s) == [] <==> forall i :: 0 <= i < |s| ==> IsSpace(s[i])
  {
    StripLeftSpec(s);
    var t := StripLeft(s);
    if t != [] {
      assert !IsSpace(s[|s| - |t|]);
    }
  }

  /** A line is a command exactly when it starts with `/`. */
  lemma ParseNotCommand(line: string, names: seq<string>)
    ensures Parse(line, names) == NotCommand <==> !StartsWith(line, "/")
  {
  }

  /** The line raises exactly when it is `/` and whitespace. */
  lemma ParseBlank(line: string, names: seq<string>)
    ensures Parse(line, names) == Blank <==>
      StartsWith(line, "/") && forall i :: 1 <= i < |line| ==> IsSpace(line[i])
  {
    if StartsWith(line, "/") {
      SplitWhitespaceEmpty(line[1..]);
      assert forall i :: 1 <= i < |line| ==> line[i] == line[1..][i - 1];
    }
  }

  /** A known command's name and arguments are the whitespace-separated
      tokens after the `/`; an unknown name is the first of them. */
  lemma ParseTokens(line: string, names: seq<string>)
    ensures Parse(line, names).Known? ==>
      StartsWith(line, "/") && Parse(line, names).name in names
      && [Parse(line, names).name] + Parse(line, names).args == SplitWhitespace(line[1..])
    ensures Parse(line, names).Unknown? ==>
      StartsWith(line, "/") && Parse(line, names).name !in names
      && Parse(line, names).name == SplitWhitespace(line[1..])[0]
  {
    if Parse(line, names).Known? {
      var parts := SplitWhitespace(line[1..]);
      assert parts == [parts[0]] + parts[1..];
    }
  }

  /** Typing `/name a b` runs `name` with `["a", "b"]`: tokens joined with
      single spaces come back as the same command and arguments. */
  lemma ParseJoined(name: string, args: seq<string>, names: seq<string>)
    requires name in names
    requires name != [] && NoSpace(name)
    requires forall i :: 0 <= i < |args| ==> args[i] != [] && NoSpace(args[i])
    ensures Parse("/" + Join(" ", [name] + args), names) == Known(name, args)
  {
    var tokens := [name] + args;
    assert forall i :: 0 <= i < |tokens| ==> tokens[i] != [] && NoSpace(tokens[i]) by {
      forall i | 0 <= i < |tokens| ensures tokens[i] != [] && NoSpace(tokens[i]) {
        if i > 0 {
          assert tokens[i] == args[i - 1];
        }
      }
    }
    SplitJoinSpace(tokens);
    var line := "/" + Join(" ", tokens);
    assert line[1..] == Join(" ", tokens);
    assert tokens[1..] == args;
  }

  // ---------------------------------------------------------------------
  // The handlers that change state

  /** `system_command(args)`: no argument leaves the prompt; a lone `''`
      or `""` empties it; otherwise the arguments joined with spaces. */
  function SystemPromptAfter(current: string, args: seq<string>): string
  {
    if args == [] then current
    else if |args| == 1 && (args[0] == "''" || args[0] == "\"\"") then ""
    else Join(" ", args)
  }

  /** The new prompt splits back into the arguments that set it. */
  lemma SystemPromptRoundTrip(current: string, args: seq<string>)
    requires args != [] && !(|args| == 1 && (args[0] == "''" || args[0] == "\"\""))
    requires forall i :: 0 <= i < |args| ==> args[i] != [] && NoSpace(args[i])
    ensures SplitWhitespace(SystemPromptAfter(current, args)) == args
  {
    SplitJoinSpace(args);
  }

  /** `/system` typed with an argument list sets the prompt to those words,
      whatever spacing separated them. */
  lemma SystemCommandFromLine(line: string, current: string)
    requires Parse(line, CommandNames()).Known? && Parse(line, CommandNames()).name == "system"
    requires |Parse(line, CommandNames()).args| >= 2
    ensures SplitWhitespace(SystemPromptAfter(current, Parse(line, CommandNames()).args)) == Parse(line, CommandNames()).args
  {
    var args := Parse(line, CommandNames()).args;
    var parts := SplitWhitespace(line[1..]);
    assert args == parts[1..];
    assert forall i :: 0 <= i < |args| ==> args[i] == parts[i + 1];
    SystemPromptRoundTrip(current, args);
  }

  datatype EditingMode = Vi | Emacs

  /** `edit_mode_command(args)`: `vi` or `emacs` in any case switches;
      anything else, or nothing, keeps the mode. */
  function EditModeAfter(current: EditingMode, args: seq<string>): EditingMode
  {
    if args == [] then current
    else if Lower(args[0]) == "vi" then Vi
    else if Lower(args[0]) == "emacs" then Emacs
    else current
  }

  /** The mode changes only on a recognised name, and then to that mode. */
  lemma EditModeOnlyOnKnownName(current: EditingMode, args: seq<string>)
    ensures EditModeAfter(current, args) != current ==> args != [] && Lower(args[0]) in {"vi", "emacs"}
    ensures args != [] && Lower(args[0]) == "vi" ==> EditModeAfter(current, args) == Vi
    ensures args != [] && Lower(args[0]) == "emacs" ==> EditModeAfter(current, args) == Emacs
    ensures args != [] && Lower(args[0]) !in {"vi", "emacs"} ==> EditModeAfter(current, args) == current
  {
  }

  /** `VI`, `Vi` and `vi` all select vi. */
  lemma EditModeIgnoresCase(current: EditingMode)
    ensures EditModeAfter(current, ["VI"]) == Vi
    ensures EditModeAfter(current, ["Emacs"]) == Emacs
  {
    assert Lower("VI") == "vi";
    assert Lower("Emacs") == "emacs";
  }

  /** The prompt toolkit session whose editing mode `/edit_mode` sets. */
  class PromptSession {
    var editingMode: EditingMode

    constructor(mode: EditingMode)
      ensures editingMode == mode
    {
      editingMode := mode;
    }
  }

  // ---------------------------------------------------------------------
  // `CommandProcessor`

  /** What the handlers can see and change: the session's fields and the
      editing mode, absent when the context was never set. */
  datatype Context = Context(session: Option<(SessionData, bool)>, mode: Option<EditingMode>)

  /** The state after running a parsed line. */
  function Apply(c: Context, p: Parsed): Context
  {
    match p
    case Known(name, args) =>
      if name == "system" && c.session.Some? then
        var (d, search) := c.session.value;
        Context(Some((d.(systemPrompt := SystemPromptAfter(d.systemPrompt, args)), search)), c.mode)
      else if name == "clear_history" && c.session.Some? then
        Context(Some((Defaults, c.session.value.1)), c.mode)
      else if name == "search" && c.session.Some? then
        Context(Some((c.session.value.0, !c.session.value.1)), c.mode)
      else if name == "edit_mode" && c.mode.Some? then
        Context(c.session, Some(EditModeAfter(c.mode.value, args)))
      else c
    case _ => c
  }

  /** Only a known command changes anything, and `/search` twice restores
      the flag. */
  lemma ApplyOnlyKnown(c: Context, p: Parsed)
    ensures !p.Known? ==> Apply(c, p) == c
    ensures p.Known? && p.name !in {"system", "clear_history", "search", "edit_mode"} ==> Apply(c, p) == c
    ensures Apply(Apply(c, Known("search", [])), Known("search", [])) == c
  {
  }

  /** What `execute` returns: `False` for a line that is not a command,
      `True` for any other, and the `IndexError` for a blank one. */
  function ExecuteResult(p: Parsed): Outcome<bool>
  {
    match p
    case NotCommand => Returned(false)
    case Blank => Raised("list index out of range")
    case _ => Returned(true)
  }

  lemma ExecuteResultMeaning(line: string, names: seq<string>)
    ensures ExecuteResult(Parse(line, names)) == Returned(false) <==> !StartsWith(line, "/")
    ensures ExecuteResult(Parse(line, names)).Raised? <==> Parse(line, names) == Blank
  {
    ParseNotCommand(line, names);
  }

  /** `CommandProcessor` with the context `set_chat_context` installed. */
  class CommandProcessor {
    const session: ChatSession?
    const prompt: PromptSession?

    constructor(session: ChatSession?, prompt: PromptSession?)
      ensures this.session == session && this.prompt == prompt
    {
      this.session := session;
      this.prompt := prompt;
    }

    function State(): Context
      reads this, session, prompt
    {
      Context(
        if session != null then Some((session.Data(), session.search)) else None,
        if prompt != null then Some(prompt.editingMode) else None)
    }

    method SystemCommand(args: seq<string>) returns (output: seq<string>)
      modifies session
      ensures State() == Apply(old(State()), Known("system", args))
      ensures session != null && args == [] ==> output == ["System Prompt:", session.systemPrompt]
    {
      output := [];
      if session == null {
        return;
      }
      if args == [] {
        output := ["System Prompt:", session.systemPrompt];
      } else if |args| == 1 && (args[0] == "''" || args[0] == "\"\"") {
        session.SetSystemPrompt("");
      } else {
        session.SetSystemPrompt(Join(" ", args));
      }
    }

    method ClearHistoryCommand()
      modifies session
      ensures State() == Apply(old(State()), Known("clear_history", []))
    {
      if session != null {
        session.Clear();
      }
    }

    method SearchCommand() returns (output: seq<string>)
      modifies session
      ensures State() == Apply(old(State()), Known("search", []))
      ensures session != null ==> output == [if session.search then "Search is turned on" else "Search is turned off"]
    {
      output := [];
      if session != null {
        if session.search {
          session.search := false;
          output := ["Search is turned off"];
        } else {
          session.search := true;
          output := ["Search is turned on"];
        }
      }
    }

    method EditModeCommand(args: seq<string>) returns (output: seq<string>)
      modifies prompt
      ensures State() == Apply(old(State()), Known("edit_mode", args))
    {
      output := [];
      if prompt == null {
        return;
      }
      if args == [] {
        output := ["Current editing mode: " + (if prompt.editingMode == Vi then "vi" else "emacs")];
        return;
      }
      var mode := args[0];
      if Lower(mode) == "vi" {
        prompt.editingMode := Vi;
      } else if Lower(mode) == "emacs" {
        prompt.editingMode := Emacs;
      } else {
        output := ["Invalid mode. Use 'vi' or 'emacs'"];
      }
    }

    /** `execute(command_line)`. The handlers of `/quit`, `/help`,
        `/models`, `/model` and `/show_history` are not modelled; `failure`
        is the exception one of them raises, if any, which `execute`
        reports. */
    method Execute(line: string, failure: Option<string>) returns (result: Outcome<bool>, output: seq<string>)
      modifies session, prompt
      ensures result == ExecuteResult(Parse(line, CommandNames()))
      ensures State() == Apply(old(State()), Parse(line, CommandNames()))
      ensures Parse(line, CommandNames()).Unknown? ==> output == ["Unknown command: /" + Parse(line, CommandNames()).name]
      ensures Parse(line, CommandNames()).Known? && Parse(line, CommandNames()).name !in {"system", "clear_history", "search", "edit_mode"}
              && failure.Some? ==>
              output == ["Command " + Parse(line, CommandNames()).name + " failed: " + failure.value]
    {
      output := [];
      if !StartsWith(line, "/") {
        result := Returned(false);
        return;
      }
      var parts := SplitWhitespace(line[1..]);
      if parts == [] {
        result := Raised("list index out of range");
        return;
      }
      var name := parts[0];
      var args := if |parts| > 1 then parts[1..] else [];
      if name in CommandNames() {
        assert Parse(line, CommandNames()) == Known(name, args);
        output := Dispatch(name, args, failure);
        result := Returned(true);
        return;
      }
      assert Parse(line, CommandNames()) == Unknown(name);
      output := ["Unknown command: /" + name];
      result := Returned(true);
    }

    /** The registered handler for `name`, run inside `execute`'s `try`. */
    method Dispatch(name: string, args: seq<string>, failure: Option<string>) returns (output: seq<string>)
      modifies session, prompt
      ensures State() == Apply(old(State()), Known(name, args))
      ensures name !in {"system", "clear_history", "search", "edit_mode"} && failure.Some? ==>
              output == ["Command " + name + " failed: " + failure.value]
    {
      output := [];
      if name == "system" {
        output := SystemCommand(args);
      } else if name == "clear_history" {
        ClearHistoryCommand();
      } else if name == "search" {
        output := SearchCommand();
      } else if name == "edit_mode" {
        output := EditModeCommand(args);
      } else if failure.Some? {
        output := ["Command " + name + " failed: " + failure.value];
      }
    }
  }

  // ---------------------------------------------------------------------
  // `SmartCommandCompleter.get_completions`

  /** `Completion(text, start_position)` */
  datatype Completion = Completion(text: string, startPosition: int)

  /** The names starting with `word`, in order, each replacing the word. */
  function Matching(names: seq<string>, word: string): seq<Completion>
  {
    if names == [] then []
    else Matching(names[..|names| - 1], word)
         + (if StartsWith(names[|names| - 1], word) then [Completion(names[|names| - 1], -|word|)] else [])
  }

  /** What the completer yields for the text typed so far: completions
      only for a `/` word without a space. */
  function Completions(names: seq<string>, text: string): seq<Completion>
  {
    if StartsWith(text, "/") && ' ' !in text then Matching(names, text[1..]) else []
  }

  /** A completion is offered exactly for each name the word prefixes, and
      replaces the whole word. */
  lemma {:induction false} MatchingMeaning(names: seq<string>, word: string)
    ensures forall c :: c in Matching(names, word) <==> c.text in names && StartsWith(c.text, word) && c.startPosition == -|word|
    decreases |names|
  {
    if names != [] {
      MatchingMeaning(names[..|names| - 1], word);
      var last := names[|names| - 1];
      assert names == names[..|names| - 1] + [last];
      forall n | n in names
        ensures n in names[..|names| - 1] || n == last
      {
        var i :| 0 <= i < |names| && names[i] == n;
        if i < |names| - 1 {
          assert names[..|names| - 1][i] == n;
        }
      }
    }
  }

  /** Completions keep the registry's order: those for earlier names come
      first. */
  lemma {:induction false} MatchingAppend(a: seq<string>, b: seq<string>, word: string)
    ensures Matching(a + b, word) == Matching(a, word) + Matching(b, word)
    decreases |b|
  {
    if b == [] {
      assert a + b == a;
    } else {
      var init := b[..|b| - 1];
      MatchingAppend(a, init, word);
      assert (a + b)[..|a + b| - 1] == a + init;
      assert (a + b)[|a + b| - 1] == b[|b| - 1];
    }
  }

  /** `get_completions(document, event)`: the loop over the registered
      names. */
  method GetCompletions(names: seq<string>, text: string) returns (completions: seq<Completion>)
    ensures completions == Completions(names, text)
  {
    completions := [];
    if StartsWith(text, "/") && ' ' !in text {
      var word := text[1..];
      for i := 0 to |names|
        invariant completions == Matching(names[..i], word)
      {
        assert names[..i + 1][..i] == names[..i];
        if StartsWith(names[i], word) {
          completions := completions + [Completion(names[i], -|word|)];
        }
      }
      assert names[..|names|] == names;
    }
  }
}
