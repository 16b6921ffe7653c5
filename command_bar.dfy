/**
 * The command palette: a terminal-style overlay that interprets one line of
 * input at a time, keeps a scrollback of commands and responses, and lets the
 * user recall earlier lines with the arrow keys.
 *
 * Navigation and scrolling are recorded as effects rather than performed;
 * theme changes go to the theme provider.
 */
module CommandBar {
  import opened Options
  import opened JsString
  import opened ThemeContext

  /** The `type` of a scrollback entry. */
  datatype Kind = Command | Response | Error

  /** What a scrollback entry shows: text, or one of the fixed panels. */
  datatype Content =
    | Text(text: string)
    | Welcome
    | HelpTable
    | IdentityCard
    | DirectoryListing(dirs: seq<string>)

  /** One scrollback entry (its random id is not modelled). */
  datatype Output = Output(kind: Kind, content: Content)

  /** A router or DOM call the palette makes. */
  datatype Effect =
    | NavigateBack
    | NavigateTo(path: string)
    | ScrollIntoView(anchor: string)

  /** A window `keydown` event: the key and whether Meta or Ctrl was held. */
  datatype KeyEvent = KeyEvent(key: string, metaKey: bool, ctrlKey: bool)

  /** The palette's whole state, with the current theme and the effects made so far. */
  datatype Palette = Palette(
    isOpen: bool,
    input: string,
    outputs: seq<Output>,
    history: seq<string>,
    historyIndex: int,
    theme: string,
    effects: seq<Effect>)

  /** The directories `cd` knows and `ls` lists. */
  const KnownDirs: seq<string> := ["projects", "log", "about", "contact", "skills", "education", "experience"]

  /** The directories that are pages of their own; the rest are sections of the home page. */
  const PageDirs: seq<string> := ["projects", "log"]

  /** The command names the interpreter recognises. */
  const CommandNames: seq<string> := ["help", "clear", "exit", "theme", "cd", "whoami", "ls"]

  /** The recall position is -1 (not recalling) or an index into the history. */
  predicate RecallValid(p: Palette) {
    -1 <= p.historyIndex < |p.history|
  }

  /** The state right after mounting: closed, with the welcome message in the scrollback. */
  function Mounted(theme: string): (p: Palette)
    ensures RecallValid(p) && !p.isOpen && p.history == []
  {
    Palette(false, [], [Output(Response, Welcome)], [], -1, theme, [])
  }

  /** A line split into its command name and its argument, if any. */
  datatype Parsed = Parsed(name: string, arg: Option<string>)

  /**
   * The line lower-cased and split on single spaces: the first part is the
   * command name, the second the argument. There is no argument exactly when
   * the line has no space.
   */
  function Parse(line: string): (p: Parsed)
    ensures ' ' !in p.name && (p.arg.Some? ==> ' ' !in p.arg.value)
    ensures forall k :: 0 <= k < |p.name| ==> !('A' <= p.name[k] <= 'Z')
    ensures p.arg.None? <==> ' ' !in line
  {
    var lowered := Lower(line);
    LowerKeepsSpaces(line);
    var parts := Split(lowered, ' ');
    SplitSeveral(lowered, ' ');
    SplitLower(line);
    Parsed(parts[0], if |parts| > 1 then Some(parts[1]) else None)
  }

  /** Words without spaces, joined by single spaces, parse to the first two words, lower-cased. */
  lemma ParseWords(words: seq<string>)
    requires |words| >= 1
    requires forall i :: 0 <= i < |words| ==> ' ' !in words[i]
    ensures Parse(Join(words, ' ')).name == Lower(words[0])
    ensures Parse(Join(words, ' ')).arg == if |words| > 1 then Some(Lower(words[1])) else None
  {
    SplitJoin(words, ' ');
    SplitLower(Join(words, ' '));
  }

  /** The line as it reaches the interpreter: trimmed, then parsed. */
  function LineOf(cmd: string): Parsed {
    Parse(Trim(cmd))
  }

  /** `arg` is truthy: present and not empty. */
  predicate Present(arg: Option<string>) {
    arg.Some? && arg.value != []
  }

  /** The error for a bad `theme` argument, listing the available themes joined by `|`. */
  function UsageMessage(): string {
    "Usage: theme [" + Join(Names(AvailableThemes), '|') + "]"
  }

  /** The usage message lists the four themes, in order, between `[` and `]`. */
  lemma UsageMessageText()
    ensures UsageMessage() == "Usage: theme [" + Join(["system", "matrix", "cyberpunk", "retro"], '|') + "]"
  {
    AvailableThemesAreAllThemes();
  }

  /** The four theme names joined by `|`. */
  lemma ThemeListText()
    ensures Join(["system", "matrix", "cyberpunk", "retro"], '|') == "system|matrix|cyberpunk|retro"
  {
    var names: seq<string> := ["system", "matrix", "cyberpunk", "retro"];
    JoinCons(names[2], names[3..], '|');
    assert [names[2]] + names[3..] == names[2..];
    assert Join(names[2..], '|') == "cyberpunk|retro";
    JoinCons(names[1], names[2..], '|');
    assert [names[1]] + names[2..] == names[1..];
    assert Join(names[1..], '|') == "matrix|cyberpunk|retro";
    JoinCons(names[0], names[1..], '|');
    assert [names[0]] + names[1..] == names;
  }

  /** The error for an unknown command, naming the (lower-cased) command. */
  function NotFoundMessage(name: string): string {
    "Command not found: " + name + ". Type 'help' for available commands."
  }

  /** `addToOutput`: appends one entry to the scrollback and changes nothing else. */
  function AddToOutput(p: Palette, kind: Kind, content: Content): (q: Palette)
    ensures q == p.(outputs := q.outputs)
    ensures |q.outputs| == |p.outputs| + 1 && q.outputs[..|p.outputs|] == p.outputs
    ensures q.outputs[|p.outputs|] == Output(kind, content)
  {
    p.(outputs := p.outputs + [Output(kind, content)])
  }

  /** The common part of every submission: echo the line, push it onto the history, reset recall and input. */
  function Echo(p: Palette, line: string): (q: Palette)
    ensures RecallValid(q)
  {
    AddToOutput(p, Command, Text(line)).(history := [line] + p.history, historyIndex := -1, input := [])
  }

  /**
   * `theme <arg>`: switch to an available theme, or explain the usage. Only
   * the theme and the scrollback change, and exactly one entry is appended:
   * a response exactly when the argument names an available theme, which is
   * then the theme.
   */
  function ThemeCommand(p: Palette, arg: Option<string>): (q: Palette)
    ensures q == p.(theme := q.theme, outputs := q.outputs)
    ensures |q.outputs| == |p.outputs| + 1 && q.outputs[..|p.outputs|] == p.outputs
    ensures q.outputs[|p.outputs|].kind == Response <==> arg.Some? && arg.value in Names(AvailableThemes)
    ensures q.outputs[|p.outputs|].kind == Response ==> q.theme == arg.value
    ensures q.outputs[|p.outputs|].kind != Response ==> q.theme == p.theme
  {
    if Present(arg) && FromName(arg.value).Some? then
      AddToOutput(p.(theme := Name(FromName(arg.value).value)), Response, Text("Theme switched to " + arg.value))
    else
      AddToOutput(p, Error, Text(UsageMessage()))
  }

  /**
   * `cd <arg>`: go back, to a page, to a section of the home page, or to the
   * root. Exactly one entry is appended, an error exactly when the argument
   * is neither `..` nor a known directory; then nothing else changes.
   * Otherwise the navigation is appended to the effects, and the palette
   * closes unless the argument is `..`.
   */
  function CdCommand(p: Palette, arg: Option<string>): (q: Palette)
    ensures q == p.(effects := q.effects, outputs := q.outputs, isOpen := q.isOpen)
    ensures |q.outputs| == |p.outputs| + 1 && q.outputs[..|p.outputs|] == p.outputs
    ensures var failed := Present(arg) && arg.value != ".." && arg.value !in KnownDirs;
      (q.outputs[|p.outputs|].kind == Error <==> failed)
      && (failed ==> q.effects == p.effects && q.isOpen == p.isOpen)
      && (!failed ==> |q.effects| > |p.effects| && q.effects[..|p.effects|] == p.effects)
    ensures q.isOpen == (p.isOpen && Present(arg) && (arg.value == ".." || arg.value !in KnownDirs))
  {
    if Present(arg) then
      var dir := arg.value;
      if dir == ".." then
        AddToOutput(p.(effects := p.effects + [NavigateBack]), Response, Text("Navigating back..."))
      else if dir in KnownDirs then
        if dir in PageDirs then
          AddToOutput(p.(effects := p.effects + [NavigateTo("/" + dir)]),
                      Response, Text("Navigating to /" + dir + "...")).(isOpen := false)
        else
          AddToOutput(p.(effects := p.effects + [NavigateTo("/"), ScrollIntoView(dir)]),
                      Response, Text("Navigating to section #" + dir + "...")).(isOpen := false)
      else
        AddToOutput(p, Error, Text("Directory not found: " + dir))
    else
      AddToOutput(p.(effects := p.effects + [NavigateTo("/")]), Response, Text("Navigating to root...")).(isOpen := false)
  }

  /** The case labels of the `switch`: which command a lower-cased name selects. */
  datatype Cmd = Help | Clear | Exit | ThemeCmd | Cd | WhoAmI | Ls | Unknown

  /** The case label a recognised command is written as. */
  function Label(c: Cmd): string
    requires c != Unknown
  {
    match c
    case Help => "help"
    case Clear => "clear"
    case Exit => "exit"
    case ThemeCmd => "theme"
    case Cd => "cd"
    case WhoAmI => "whoami"
    case Ls => "ls"
  }

  /**
   * The command `name` selects: the one whose label it is, or `Unknown`
   * exactly when it is none of the recognised names.
   */
  function Classify(name: string): (c: Cmd)
    ensures c == Unknown <==> name !in CommandNames
    ensures c != Unknown ==> Label(c) == name
  {
    if name == "help" then Help
    else if name == "clear" then Clear
    else if name == "exit" then Exit
    else if name == "theme" then ThemeCmd
    else if name == "cd" then Cd
    else if name == "whoami" then WhoAmI
    else if name == "ls" then Ls
    else Unknown
  }

  /** Every recognised command is selected by its own label. */
  lemma ClassifyLabel(c: Cmd)
    requires c != Unknown
    ensures Classify(Label(c)) == c
  {
  }

  /** The command a submitted line selects. */
  function CommandOf(cmd: string): Cmd {
    Classify(LineOf(cmd).name)
  }

  /**
   * The `switch` on the command name. It never touches the history, the
   * recall position or the input, and apart from `clear` it only appends to
   * the scrollback.
   */
  function Dispatch(p: Palette, line: Parsed): (q: Palette)
    ensures q.history == p.history && q.historyIndex == p.historyIndex && q.input == p.input
    ensures Classify(line.name) != Clear ==> |p.outputs| <= |q.outputs| && q.outputs[..|p.outputs|] == p.outputs
    ensures Classify(line.name) == Clear ==> q.outputs == []
  {
    match Classify(line.name)
    case Help => AddToOutput(p, Response, HelpTable)
    case Clear => p.(outputs := [])
    case Exit => p.(isOpen := false)
    case ThemeCmd => ThemeCommand(p, line.arg)
    case Cd => CdCommand(p, line.arg)
    case WhoAmI => AddToOutput(p, Response, IdentityCard)
    case Ls => AddToOutput(p, Response, DirectoryListing(KnownDirs))
    case Unknown => AddToOutput(p, Error, Text(NotFoundMessage(line.name)))
  }

  /** What each case of the `switch` does, one case at a time. */
  lemma DispatchCase(p: Palette, line: Parsed)
    ensures Classify(line.name) == Help ==> Dispatch(p, line) == AddToOutput(p, Response, HelpTable)
    ensures Classify(line.name) == WhoAmI ==> Dispatch(p, line) == AddToOutput(p, Response, IdentityCard)
    ensures Classify(line.name) == Ls ==> Dispatch(p, line) == AddToOutput(p, Response, DirectoryListing(KnownDirs))
    ensures Classify(line.name) == Clear ==> Dispatch(p, line) == p.(outputs := [])
    ensures Classify(line.name) == Exit ==> Dispatch(p, line) == p.(isOpen := false)
    ensures Classify(line.name) == ThemeCmd ==> Dispatch(p, line) == ThemeCommand(p, line.arg)
    ensures Classify(line.name) == Cd ==> Dispatch(p, line) == CdCommand(p, line.arg)
    ensures Classify(line.name) == Unknown ==>
      Dispatch(p, line) == AddToOutput(p, Error, Text(NotFoundMessage(line.name)))
  {
  }

  /** `executeCommand`: a blank line is ignored; any other line is echoed, recorded and dispatched. */
  function Execute(p: Palette, cmd: string): (q: Palette)
    ensures RecallValid(p) ==> RecallValid(q)
    ensures Trim(cmd) == [] ==> q == p
    ensures Trim(cmd) != [] ==> q.history == [Trim(cmd)] + p.history && q.historyIndex == -1 && q.input == []
  {
    var trimmed := Trim(cmd);
    if trimmed == [] then p else Dispatch(Echo(p, trimmed), Parse(trimmed))
  }

  /** A line that is empty after trimming changes nothing at all. */
  lemma BlankLineIsIgnored(p: Palette, cmd: string)
    requires IsBlank(cmd)
    ensures Execute(p, cmd) == p
  {
  }

  /** A line that is not blank is dispatched on top of its echo. */
  lemma ExecuteNonBlank(p: Palette, cmd: string)
    requires !IsBlank(cmd)
    ensures Execute(p, cmd) == Dispatch(Echo(p, Trim(cmd)), LineOf(cmd))
  {
  }

  /**
   * Any other line is pushed onto the front of the history, resets recall
   * and clears the input; unless it is `clear`, the scrollback keeps what it
   * had and the trimmed line follows it before any response.
   */
  lemma SubmissionIsEchoedAndRecorded(p: Palette, cmd: string)
    requires !IsBlank(cmd)
    ensures Execute(p, cmd).history == [Trim(cmd)] + p.history
    ensures Execute(p, cmd).historyIndex == -1 && Execute(p, cmd).input == []
    ensures CommandOf(cmd) != Clear ==>
      |p.outputs| < |Execute(p, cmd).outputs|
      && Execute(p, cmd).outputs[..|p.outputs| + 1] == p.outputs + [Output(Command, Text(Trim(cmd)))]
  {
    ExecuteNonBlank(p, cmd);
    var e := Echo(p, Trim(cmd));
    var q := Dispatch(e, LineOf(cmd));
    if CommandOf(cmd) != Clear {
      assert q.outputs[..|e.outputs|] == e.outputs;
      assert q.outputs[..|p.outputs| + 1] == q.outputs[..|e.outputs|];
    }
  }

  /** `clear` empties the scrollback, dropping the echo too; `exit` only closes the palette. */
  lemma ClearAndExit(p: Palette, cmd: string)
    requires !IsBlank(cmd)
    ensures CommandOf(cmd) == Clear ==> Execute(p, cmd) == Echo(p, Trim(cmd)).(outputs := [])
    ensures CommandOf(cmd) == Exit ==> Execute(p, cmd) == Echo(p, Trim(cmd)).(isOpen := false)
  {
    ExecuteNonBlank(p, cmd);
    DispatchCase(Echo(p, Trim(cmd)), LineOf(cmd));
  }

  /**
   * `theme x` with an available theme switches to it and reports it;
   * anything else leaves the theme alone and appends the usage error.
   */
  lemma ThemeCommandEffect(p: Palette, cmd: string)
    requires !IsBlank(cmd) && CommandOf(cmd) == ThemeCmd
    ensures var e, arg := Echo(p, Trim(cmd)), LineOf(cmd).arg;
      if arg.Some? && arg.value in Names(AvailableThemes) then
        Execute(p, cmd) == e.(theme := arg.value,
                              outputs := e.outputs + [Output(Response, Text("Theme switched to " + arg.value))])
      else
        Execute(p, cmd) == e.(outputs := e.outputs + [Output(Error, Text(UsageMessage()))])
  {
    ExecuteNonBlank(p, cmd);
    var e, arg := Echo(p, Trim(cmd)), LineOf(cmd).arg;
    DispatchCase(e, LineOf(cmd));
    if arg.Some? && arg.value in Names(AvailableThemes) {
      assert Name(FromName(arg.value).value) == arg.value;
    }
  }

  /**
   * `cd`: with no argument, go to the root and close; `..` goes back and
   * stays open; `projects` and `log` go to their page and close; the other
   * known directories go home, scroll to their section and close; anything
   * else appends `Directory not found` and changes nothing else.
   */
  lemma CdCommandEffect(p: Palette, cmd: string)
    requires !IsBlank(cmd) && CommandOf(cmd) == Cd
    ensures var e, arg := Echo(p, Trim(cmd)), LineOf(cmd).arg;
      var q := Execute(p, cmd);
      if !Present(arg) then
        q == e.(effects := e.effects + [NavigateTo("/")], isOpen := false,
                outputs := e.outputs + [Output(Response, Text("Navigating to root..."))])
      else if arg.value == ".." then
        q == e.(effects := e.effects + [NavigateBack],
                outputs := e.outputs + [Output(Response, Text("Navigating back..."))])
      else if arg.value in PageDirs then
        q == e.(effects := e.effects + [NavigateTo("/" + arg.value)], isOpen := false,
                outputs := e.outputs + [Output(Response, Text("Navigating to /" + arg.value + "..."))])
      else if arg.value in KnownDirs then
        q == e.(effects := e.effects + [NavigateTo("/"), ScrollIntoView(arg.value)], isOpen := false,
                outputs := e.outputs + [Output(Response, Text("Navigating to section #" + arg.value + "..."))])
      else
        q == e.(outputs := e.outputs + [Output(Error, Text("Directory not found: " + arg.value))])
  {
    ExecuteNonBlank(p, cmd);
    DispatchCase(Echo(p, Trim(cmd)), LineOf(cmd));
  }

  /**
   * `help`, `whoami` and `ls` append one response after the echo (the help
   * table, the identity card, the listing of the known directories) and
   * change nothing else: the palette stays open, the theme and the effects
   * are untouched.
   */
  lemma InformationCommands(p: Palette, cmd: string)
    requires !IsBlank(cmd) && CommandOf(cmd) in {Help, WhoAmI, Ls}
    ensures var e := Echo(p, Trim(cmd));
      var panel := match CommandOf(cmd)
        case Help => HelpTable
        case WhoAmI => IdentityCard
        case _ => DirectoryListing(KnownDirs);
      Execute(p, cmd) == e.(outputs := e.outputs + [Output(Response, panel)])
    ensures Execute(p, cmd).isOpen == p.isOpen
    ensures Execute(p, cmd).theme == p.theme && Execute(p, cmd).effects == p.effects
  {
    ExecuteNonBlank(p, cmd);
    DispatchCase(Echo(p, Trim(cmd)), LineOf(cmd));
  }

  /**
   * An unrecognised command appends exactly one error naming the
   * lower-cased token after the echo, and changes nothing else.
   */
  lemma UnknownCommandIsOneError(p: Palette, cmd: string)
    requires !IsBlank(cmd) && LineOf(cmd).name !in CommandNames
    ensures var e := Echo(p, Trim(cmd));
      Execute(p, cmd) == e.(outputs := e.outputs + [Output(Error, Text(NotFoundMessage(LineOf(cmd).name)))])
    ensures Execute(p, cmd).isOpen == p.isOpen
    ensures Execute(p, cmd).theme == p.theme && Execute(p, cmd).effects == p.effects
  {
    ExecuteNonBlank(p, cmd);
    DispatchCase(Echo(p, Trim(cmd)), LineOf(cmd));
  }

  /**
   * Every recognised command other than `clear` and `exit`, valid or not,
   * adds exactly one entry after the echo.
   */
  lemma OneResponsePerCommand(p: Palette, cmd: string)
    requires !IsBlank(cmd) && CommandOf(cmd) != Clear && CommandOf(cmd) != Exit
    ensures |Execute(p, cmd).outputs| == |p.outputs| + 2
    ensures Execute(p, cmd).outputs[..|p.outputs| + 1] == p.outputs + [Output(Command, Text(Trim(cmd)))]
  {
    ExecuteNonBlank(p, cmd);
    DispatchAddsOne(Echo(p, Trim(cmd)), LineOf(cmd));
    SubmissionIsEchoedAndRecorded(p, cmd);
  }

  /** Every case of the `switch` but `clear` and `exit` appends exactly one entry. */
  lemma DispatchAddsOne(p: Palette, line: Parsed)
    requires Classify(line.name) != Clear && Classify(line.name) != Exit
    ensures |Dispatch(p, line).outputs| == |p.outputs| + 1
  {
    match Classify(line.name)
    case Help =>
    case ThemeCmd =>
    case Cd =>
    case WhoAmI =>
    case Ls =>
    case Unknown =>
  }

  /** Lower-casing a string with no upper-case ASCII letter changes nothing. */
  lemma LowerOfLowercase(s: string)
    requires forall k :: 0 <= k < |s| ==> !('A' <= s[k] <= 'Z')
    ensures Lower(s) == s
  {
  }

  /** A lower-case word, a space and a lower-case word: already trimmed, parsed into the two words. */
  lemma LineOfTwoWords(name: string, arg: string)
    requires name != [] && arg != []
    requires forall k :: 0 <= k < |name| ==> 'a' <= name[k] <= 'z'
    requires forall k :: 0 <= k < |arg| ==> 'a' <= arg[k] <= 'z'
    ensures Trim(name + " " + arg) == name + " " + arg
    ensures LineOf(name + " " + arg) == Parsed(name, Some(arg))
  {
    var line := name + " " + arg;
    assert line[0] == name[0] && line[|line| - 1] == arg[|arg| - 1];
    TrimOfTrimmed(line);
    JoinCons(name, [arg], ' ');
    assert [name] + [arg] == [name, arg];
    ParseWords([name, arg]);
    LowerOfLowercase(name);
    LowerOfLowercase(arg);
  }

  /**
   * `handleInputKeyDown`: ArrowUp moves the recall position one step further
   * while there is history left, ArrowDown one step back (to -1 and an empty
   * input from 0, nowhere from -1); the line shown is
   * `history[|history| - 1 - position]`. The history is never changed.
   */
  function KeyDown(p: Palette, key: string): (q: Palette)
    requires RecallValid(p)
    ensures RecallValid(q)
    ensures q == p.(historyIndex := q.historyIndex, input := q.input)
    ensures q.historyIndex != p.historyIndex ==>
      q.input == if q.historyIndex == -1 then [] else q.history[|q.history| - 1 - q.historyIndex]
    ensures q.historyIndex == p.historyIndex ==> q == p
    ensures key != "ArrowUp" && key != "ArrowDown" ==> q == p
  {
    if key == "ArrowUp" then
      if p.historyIndex < |p.history| - 1 then
        var newIndex := p.historyIndex + 1;
        p.(historyIndex := newIndex, input := p.history[|p.history| - 1 - newIndex])
      else p
    else if key == "ArrowDown" then
      if p.historyIndex > 0 then
        var newIndex := p.historyIndex - 1;
        p.(historyIndex := newIndex, input := p.history[|p.history| - 1 - newIndex])
      else if p.historyIndex == 0 then
        p.(historyIndex := -1, input := [])
      else p
    else p
  }

  /** ArrowUp advances exactly when there is older history; ArrowDown from -1 does nothing. */
  lemma RecallSteps(p: Palette)
    requires RecallValid(p)
    ensures KeyDown(p, "ArrowUp").historyIndex
         == if p.historyIndex < |p.history| - 1 then p.historyIndex + 1 else p.historyIndex
    ensures KeyDown(p, "ArrowDown").historyIndex == if p.historyIndex > 0 then p.historyIndex - 1 else -1
    ensures p.historyIndex == 0 ==> KeyDown(p, "ArrowDown").input == []
    ensures p.historyIndex == -1 ==> KeyDown(p, "ArrowDown") == p
    ensures p.historyIndex == |p.history| - 1 ==> KeyDown(p, "ArrowUp") == p
  {
  }

  /** ArrowDown undoes an ArrowUp that moved. */
  lemma ArrowDownUndoesArrowUp(p: Palette)
    requires RecallValid(p) && p.historyIndex < |p.history| - 1
    ensures KeyDown(KeyDown(p, "ArrowUp"), "ArrowDown").historyIndex == p.historyIndex
  {
  }

  /** The state after a series of key presses in the input. */
  function KeyDowns(p: Palette, keys: seq<string>): (q: Palette)
    requires RecallValid(p)
    ensures RecallValid(q)
    decreases keys
  {
    if keys == [] then p else KeyDowns(KeyDown(p, keys[0]), keys[1..])
  }

  /** Any series of key presses keeps the recall position in range and leaves all but it and the input alone. */
  lemma {:induction false} RecallNeverChangesHistory(p: Palette, keys: seq<string>)
    requires RecallValid(p)
    ensures KeyDowns(p, keys) == p.(historyIndex := KeyDowns(p, keys).historyIndex, input := KeyDowns(p, keys).input)
    decreases keys
  {
    if keys != [] {
      RecallNeverChangesHistory(KeyDown(p, keys[0]), keys[1..]);
    }
  }

  /** The state after submitting a series of lines. */
  function ExecuteAll(p: Palette, cmds: seq<string>): (q: Palette)
    ensures RecallValid(p) ==> RecallValid(q)
    decreases cmds
  {
    if cmds == [] then p else ExecuteAll(Execute(p, cmds[0]), cmds[1..])
  }

  /** The non-blank lines among `cmds`, trimmed, in submission order. */
  function Submitted(cmds: seq<string>): seq<string> {
    if cmds == [] then []
    else (if Trim(cmds[0]) == [] then [] else [Trim(cmds[0])]) + Submitted(cmds[1..])
  }

  /** `s` back to front. */
  function Reverse(s: seq<string>): (r: seq<string>)
    ensures |r| == |s|
    ensures forall i :: 0 <= i < |s| ==> r[i] == s[|s| - 1 - i]
  {
    if s == [] then [] else Reverse(s[1..]) + [s[0]]
  }

  /** Reversing a list with a head puts the head last. */
  lemma ReverseCons(t: string, rest: seq<string>)
    ensures Reverse([t] + rest) == Reverse(rest) + [t]
  {
    assert ([t] + rest)[1..] == rest;
  }

  /** Concatenation is associative; stated once so the history proofs stay small. */
  lemma AppendAssociative<T>(a: seq<T>, b: seq<T>, c: seq<T>)
    ensures a + (b + c) == a + b + c
  {
  }

  /** The history holds the submitted lines newest first, in front of what it held before. */
  lemma {:induction false} HistoryIsNewestFirst(p: Palette, cmds: seq<string>)
    ensures ExecuteAll(p, cmds).history == Reverse(Submitted(cmds)) + p.history
    decreases cmds
  {
    if cmds != [] {
      var first := Execute(p, cmds[0]);
      HistoryIsNewestFirst(first, cmds[1..]);
      var rest := Submitted(cmds[1..]);
      if Trim(cmds[0]) == [] {
        assert Submitted(cmds) == rest;
      } else {
        var t := Trim(cmds[0]);
        assert Submitted(cmds) == [t] + rest;
        ReverseCons(t, rest);
        assert first.history == [t] + p.history;
        AppendAssociative(Reverse(rest), [t], p.history);
      }
    }
  }

  /** After at least one non-blank line, the recall position is back at -1. */
  lemma {:induction false} RecallResetAfterSubmissions(p: Palette, cmds: seq<string>)
    requires Submitted(cmds) != []
    ensures ExecuteAll(p, cmds).historyIndex == -1
    decreases cmds
  {
    if Submitted(cmds[1..]) != [] {
      RecallResetAfterSubmissions(Execute(p, cmds[0]), cmds[1..]);
    } else {
      assert Trim(cmds[0]) != [];
      RecallIndexKept(Execute(p, cmds[0]), cmds[1..]);
    }
  }

  /** Blank lines leave the recall position where it was. */
  lemma {:induction false} RecallIndexKept(p: Palette, cmds: seq<string>)
    requires Submitted(cmds) == []
    ensures ExecuteAll(p, cmds).historyIndex == p.historyIndex
    decreases cmds
  {
    if cmds != [] {
      assert Trim(cmds[0]) == [];
      RecallIndexKept(Execute(p, cmds[0]), cmds[1..]);
    }
  }

  /**
   * Because lines are pushed onto the front of the history but recalled from
   * its back, the first ArrowUp after a session's submissions shows the
   * OLDEST line submitted, not the latest.
   */
  lemma FirstArrowUpShowsOldest(p: Palette, cmds: seq<string>)
    requires RecallValid(p) && p.history == [] && Submitted(cmds) != []
    ensures RecallValid(ExecuteAll(p, cmds))
    ensures KeyDown(ExecuteAll(p, cmds), "ArrowUp").input == Submitted(cmds)[0]
  {
    HistoryIsNewestFirst(p, cmds);
    RecallResetAfterSubmissions(p, cmds);
    var q := ExecuteAll(p, cmds);
    var sub := Submitted(cmds);
    assert q.history == Reverse(sub) + [];
    assert q.history == Reverse(sub);
    ArrowUpFromReset(q);
    assert q.history[|q.history| - 1] == sub[0];
  }

  /** With recall reset and some history, ArrowUp shows the last history entry. */
  lemma ArrowUpFromReset(q: Palette)
    requires RecallValid(q) && q.historyIndex == -1 && |q.history| >= 1
    ensures KeyDown(q, "ArrowUp").input == q.history[|q.history| - 1]
  {
  }

  /**
   * The window `keydown` handler: Ctrl+K or Meta+K toggles the palette,
   * Escape closes it, any other key leaves it as it is.
   */
  function GlobalKey(isOpen: bool, e: KeyEvent): (open: bool)
    ensures (e.metaKey || e.ctrlKey) && e.key == "k" ==> open == !isOpen
    ensures e.key == "Escape" ==> !open
    ensures !((e.metaKey || e.ctrlKey) && e.key == "k") && e.key != "Escape" ==> open == isOpen
  {
    var toggled := if (e.metaKey || e.ctrlKey) && e.key == "k" then !isOpen else isOpen;
    if e.key == "Escape" then false else toggled
  }

  /** The command palette component and the state it keeps. */
  class CommandBar {
    var isOpen: bool
    var input: string
    var outputs: seq<Output>
    var history: seq<string>
    var historyIndex: int
    /** The navigation and scrolling calls made so far, oldest first. */
    var effects: seq<Effect>
    /** The theme provider the palette switches themes through. */
    const themes: ThemeProvider

    ghost predicate Valid()
      reads this
    {
      -1 <= historyIndex < |history|
    }

    /** The component's state as a value. */
    function State(): (p: Palette)
      reads this, themes
      ensures Valid() ==> RecallValid(p)
    {
      Palette(isOpen, input, outputs, history, historyIndex, themes.theme, effects)
    }

    /** Mounting: the initial state, and the welcome message the first effect adds. */
    constructor (provider: ThemeProvider)
      ensures Valid() && themes == provider
      ensures State() == Mounted(provider.theme)
    {
      themes := provider;
      isOpen := false;
      input := [];
      history := [];
      historyIndex := -1;
      effects := [];
      outputs := [];
      new;
      if |outputs| == 0 {
        outputs := [Output(Response, Welcome)];
      }
    }

    /** `addToOutput`: appends one entry to the scrollback. */
    method AddToOutput(kind: Kind, content: Content)
      modifies this`outputs
      ensures outputs == old(outputs) + [Output(kind, content)]
    {
      outputs := outputs + [Output(kind, content)];
    }

    /** Records one router or DOM call. */
    method Record(e: Effect)
      modifies this`effects
      ensures effects == old(effects) + [e]
    {
      effects := effects + [e];
    }

    /** `executeCommand`. */
    method ExecuteCommand(cmd: string)
      requires Valid()
      modifies this, themes`theme
      ensures Valid()
      ensures State() == Execute(old(State()), cmd)
    {
      var trimmedCmd := Trim(cmd);
      if trimmedCmd == [] {
        return;
      }
      EchoLine(trimmedCmd);
      RunCommand(Parse(trimmedCmd));
    }

    /** Echoes the trimmed line, pushes it onto the history and resets recall and the input. */
    method EchoLine(trimmedCmd: string)
      modifies this`outputs, this`history, this`historyIndex, this`input
      ensures Valid()
      ensures State() == Echo(old(State()), trimmedCmd)
    {
      AddToOutput(Command, Text(trimmedCmd));
      history := [trimmedCmd] + history;
      historyIndex := -1;
      input := [];
    }

    /** The `switch` on the parsed line. */
    method RunCommand(parts: Parsed)
      modifies this`outputs, this`effects, this`isOpen, themes`theme
      ensures State() == Dispatch(old(State()), parts)
    {
      var mainCommand, arg := parts.name, parts.arg;
      match Classify(mainCommand) {
        case Help => AddToOutput(Response, HelpTable);
        case Clear => outputs := [];
        case Exit => isOpen := false;
        case ThemeCmd => RunTheme(arg);
        case Cd => RunCd(arg);
        case WhoAmI => AddToOutput(Response, IdentityCard);
        case Ls => AddToOutput(Response, DirectoryListing(KnownDirs));
        case Unknown => AddToOutput(Error, Text(NotFoundMessage(mainCommand)));
      }
    }

    /** The `theme` case. */
    method RunTheme(arg: Option<string>)
      modifies this`outputs, themes`theme
      ensures State() == ThemeCommand(old(State()), arg)
    {
      if Present(arg) && FromName(arg.value).Some? {
        themes.SetTheme(FromName(arg.value).value);
        AddToOutput(Response, Text("Theme switched to " + arg.value));
      } else {
        AddToOutput(Error, Text(UsageMessage()));
      }
    }

    /** The `cd` case. */
    method RunCd(arg: Option<string>)
      modifies this`outputs, this`effects, this`isOpen
      ensures State() == CdCommand(old(State()), arg)
    {
      if Present(arg) {
        var dir := arg.value;
        if dir == ".." {
          Record(NavigateBack);
          AddToOutput(Response, Text("Navigating back..."));
        } else if dir in KnownDirs {
          if dir in PageDirs {
            Record(NavigateTo("/" + dir));
            AddToOutput(Response, Text("Navigating to /" + dir + "..."));
            isOpen := false;
          } else {
            Record(NavigateTo("/"));
            AddToOutput(Response, Text("Navigating to section #" + dir + "..."));
            isOpen := false;
            Record(ScrollIntoView(dir));
          }
        } else {
          AddToOutput(Error, Text("Directory not found: " + dir));
        }
      } else {
        Record(NavigateTo("/"));
        AddToOutput(Response, Text("Navigating to root..."));
        isOpen := false;
      }
    }

    /** `handleSubmit`: runs the current input. */
    method HandleSubmit()
      requires Valid()
      modifies this, themes`theme
      ensures Valid()
      ensures State() == Execute(old(State()), old(input))
    {
      ExecuteCommand(input);
    }

    /** The input's `onChange`. */
    method SetInput(text: string)
      modifies this`input
      ensures input == text
    {
      input := text;
    }

    /** `handleInputKeyDown`: history recall with the arrow keys. */
    method HandleInputKeyDown(key: string)
      requires Valid()
      modifies this`historyIndex, this`input
      ensures Valid()
      ensures State() == KeyDown(old(State()), key)
    {
      if key == "ArrowUp" {
        if historyIndex < |history| - 1 {
          var newIndex := historyIndex + 1;
          historyIndex := newIndex;
          input := history[|history| - 1 - newIndex];
        }
      } else if key == "ArrowDown" {
        if historyIndex > 0 {
          var newIndex := historyIndex - 1;
          historyIndex := newIndex;
          input := history[|history| - 1 - newIndex];
        } else if historyIndex == 0 {
          historyIndex := -1;
          input := [];
        }
      }
    }

    /** The window `keydown` handler. */
    method HandleKeyDown(e: KeyEvent)
      modifies this`isOpen
      ensures isOpen == GlobalKey(old(isOpen), e)
    {
      if (e.metaKey || e.ctrlKey) && e.key == "k" {
        isOpen := !isOpen;
      }
      if e.key == "Escape" {
        isOpen := false;
      }
    }

    /** The `open-command-bar` window event. */
    method HandleOpenEvent()
      modifies this`isOpen
      ensures isOpen
    {
      isOpen := true;
    }

    /** The trash button in the header: empties the scrollback. */
    method ClearScrollback()
      modifies this`outputs
      ensures outputs == []
    {
      outputs := [];
    }

    /** The close button, or a click on the backdrop. */
    method Close()
      modifies this`isOpen
      ensures !isOpen
    {
      isOpen := false;
    }
  }
}
