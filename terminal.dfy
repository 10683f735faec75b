/** components/Terminal.tsx: the command interpreter behind the CRT terminal. A submitted
    line is trimmed, echoed into the transcript, recorded for recall and dispatched on its
    lower-cased first token; the arrow keys walk back and forth through the recorded
    commands. */
module Terminal {
  import opened JsString
  import opened Themes

  /** The three kinds of transcript line. */
  datatype Kind = Input | Output | Error

  datatype HistoryItem = HistoryItem(kind: Kind, content: string)

  /** The keys handleKeyDown distinguishes; every other key is ignored. */
  datatype Key = Enter | ArrowUp | ArrowDown | Other

  /** The terminal's state at one moment: its own useState fields, plus the theme it
      reads as a prop and changes through setTheme. */
  datatype TermState = TermState(
    history: seq<HistoryItem>,
    input: string,
    isProcessing: bool,
    streamingContent: string,
    commandHistory: seq<string>,
    historyIndex: int,
    theme: ThemeColor)

  /** The recall index stays within the recorded commands, -1 meaning "none selected". */
  predicate ValidState(s: TermState) {
    -1 <= s.historyIndex < |s.commandHistory|
  }

  // ---------------------------------------------------------------------------------
  // Parsing a submitted line

  /** `args[0].toLowerCase()` with `args = trimmed.split(' ')`. */
  function MainCommand(trimmed: string): string {
    ToLower(Split(trimmed, ' ')[0])
  }

  /** `args.slice(1).join(' ')`. */
  function CommandArgs(trimmed: string): string {
    Join(Split(trimmed, ' ')[1..], " ")
  }

  /** The first token and the argument string together give back the line: the token,
      then one space and the arguments when there is more than one token. The token holds
      no space, and splitting the arguments again gives the remaining tokens. */
  lemma ParseRoundTrip(trimmed: string)
    ensures var args := Split(trimmed, ' ');
      && ' ' !in args[0]
      && trimmed == args[0] + (if |args| > 1 then " " + CommandArgs(trimmed) else "")
      && (|args| > 1 ==> Split(CommandArgs(trimmed), ' ') == args[1..])
      && MainCommand(trimmed) == ToLower(args[0])
  {
    var args := Split(trimmed, ' ');
    JoinSplit(trimmed, ' ');
    JoinHead(args, " ");
    if |args| > 1 {
      TailWithoutSep(args, ' ');
      SplitJoin(args[1..], ' ');
    }
  }

  lemma JoinHead(parts: seq<string>, sep: string)
    requires |parts| >= 1
    ensures Join(parts, sep) == parts[0] + (if |parts| > 1 then sep + Join(parts[1..], sep) else "")
  {
  }

  lemma TailWithoutSep(parts: seq<string>, sep: char)
    requires |parts| > 1 && forall i :: 0 <= i < |parts| ==> sep !in parts[i]
    ensures forall i :: 0 <= i < |parts[1..]| ==> sep !in parts[1..][i]
  {
    forall i | 0 <= i < |parts[1..]| ensures sep !in parts[1..][i] {
      assert parts[1..][i] == parts[i + 1];
    }
  }

  /** The tokenising splits on single spaces only: two spaces between the command and its
      argument leave an argument that starts with a space. */
  lemma DoubleSpaceArgument(command: string, argument: string)
    requires ' ' !in command && ' ' !in argument
    ensures MainCommand(command + "  " + argument) == ToLower(command)
    ensures CommandArgs(command + "  " + argument) == " " + argument
  {
    var rest := " " + argument;
    assert command + "  " + argument == command + [' '] + rest;
    SplitAtFirstSep(command, ' ', rest);
    assert rest == "" + [' '] + argument;
    SplitAtFirstSep("", ' ', argument);
    SplitWithoutSep(argument, ' ');
    var args := Split(command + "  " + argument, ' ');
    assert args == [command, "", argument];
    assert args[1..] == ["", argument];
    assert Join(["", argument], " ") == "" + " " + Join([argument], " ");
  }

  // ---------------------------------------------------------------------------------
  // The command switch

  function OutputLine(s: string): HistoryItem { HistoryItem(Output, s) }
  function ErrorLine(s: string): HistoryItem { HistoryItem(Error, s) }

  /** The lines `help` prints. */
  const HelpLines: seq<HistoryItem> := [
    OutputLine("AVAILABLE COMMANDS:"),
    OutputLine("  ask <query>  - Query the Neural Net (Gemini AI)"),
    OutputLine("  theme <name> - Change color (amber, green, cyan, white)"),
    OutputLine("  clear        - Clear the terminal screen"),
    OutputLine("  date         - Display system date/time"),
    OutputLine("  whoami       - Display current user"),
    OutputLine("  about        - System information")
  ]

  const AboutLines: seq<HistoryItem> := [
    OutputLine("Developed by BaudRate Systems."),
    OutputLine("Running on React + Tailwind + Gemini Flash.")
  ]

  const AskUsage: string := "Usage: ask <your question>"

  /** The error `theme` reports: the enum's keys, joined and lower-cased. */
  function ThemeErrorMessage(): string {
    "Unknown theme. Available: " + ToLower(Join(ObjectKeys(), ", "))
  }

  lemma LowerKeys()
    ensures ToLower("AMBER") == "amber" && ToLower("GREEN") == "green"
    ensures ToLower("CYAN") == "cyan" && ToLower("WHITE") == "white"
    ensures ToLower(", ") == ", "
  {
  }

  lemma JoinedKeys()
    ensures Join(ObjectKeys(), ", ") == "AMBER" + ", " + ("GREEN" + ", " + ("CYAN" + ", " + "WHITE"))
  {
    ObjectKeysInOrder();
    var keys := ObjectKeys();
    assert keys[1..][1..][1..] == ["WHITE"];
  }

  lemma LowerJoinedKeys()
    ensures ToLower(Join(ObjectKeys(), ", ")) == "amber" + ", " + ("green" + ", " + ("cyan" + ", " + "white"))
  {
    JoinedKeys();
    var tail := "CYAN" + ", " + "WHITE";
    ToLowerConcat("AMBER" + ", ", "GREEN" + ", " + tail);
    ToLowerConcat("AMBER", ", ");
    ToLowerConcat("GREEN" + ", ", tail);
    ToLowerConcat("GREEN", ", ");
    ToLowerConcat("CYAN" + ", ", "WHITE");
    ToLowerConcat("CYAN", ", ");
    LowerKeys();
  }

  /** The list follows the enum's declaration order. */
  lemma ThemeErrorListsMembers()
    ensures ThemeErrorMessage() == "Unknown theme. Available: " + "amber, green, cyan, white"
  {
    LowerJoinedKeys();
    ListedNames();
  }

  lemma ListedNames()
    ensures "amber" + ", " + ("green" + ", " + ("cyan" + ", " + "white")) == "amber, green, cyan, white"
  {
    assert "cyan" + ", " + "white" == "cyan, white";
    assert "green" + ", " + "cyan, white" == "green, cyan, white";
  }

  /** `newTheme in ThemeColor` followed by `newTheme as ThemeColor`, with
      `newTheme = commandArgs.toUpperCase()`. */
  function AcceptedTheme(commandArgs: string): (r: Option<ThemeColor>)
    ensures r.Some? <==> exists t :: KeyOf(t) == ToUpper(commandArgs)
    ensures r.Some? ==> KeyOf(r.value) == ToUpper(commandArgs)
  {
    var newTheme := ToUpper(commandArgs);
    UpperCaseHasPropertyIffKey(commandArgs);
    KeysAreValues();
    if HasProperty(newTheme) then FromValue(newTheme) else None
  }

  /** A command that launches a query: `ask` with a non-empty argument string. */
  predicate StartsQuery(mainCommand: string, commandArgs: string) {
    mainCommand == "ask" && commandArgs != ""
  }

  /** The transcript after the switch, given the transcript `prev` that already holds the
      echo of the command; `now` is what `new Date().toString()` returns. */
  function Respond(prev: seq<HistoryItem>, mainCommand: string, commandArgs: string, now: string)
    : (r: seq<HistoryItem>)
    ensures mainCommand == "clear" ==> r == []
    ensures mainCommand != "clear" ==> prev <= r
    ensures forall i :: |prev| <= i < |r| ==> r[i].kind != Input
  {
    if mainCommand == "help" then prev + HelpLines
    else if mainCommand == "clear" then []
    else if mainCommand == "date" then prev + [OutputLine(now)]
    else if mainCommand == "whoami" then prev + [OutputLine("guest@baudrate-v1")]
    else if mainCommand == "about" then prev + AboutLines
    else if mainCommand == "theme" then
      match AcceptedTheme(commandArgs)
      case Some(t) => prev + [OutputLine("Theme changed to " + KeyOf(t))]
      case None => prev + [ErrorLine(ThemeErrorMessage())]
    else if mainCommand == "ask" then
      if commandArgs == "" then prev + [ErrorLine(AskUsage)] else prev
    else prev + [ErrorLine("Command not found: " + mainCommand)]
  }

  /** The theme after the switch: only an accepted `theme` command changes it. */
  function NextTheme(theme: ThemeColor, mainCommand: string, commandArgs: string): ThemeColor {
    if mainCommand == "theme" && AcceptedTheme(commandArgs).Some? then AcceptedTheme(commandArgs).value
    else theme
  }

  /** executeCommand up to its first `await`: skip a blank line; otherwise echo it, record
      it for recall, reset the recall position and the input line, then dispatch. */
  function Execute(s: TermState, cmd: string, now: string): TermState {
    var trimmed := Trim(cmd);
    if trimmed == "" then s
    else
      var mainCommand := MainCommand(trimmed);
      var commandArgs := CommandArgs(trimmed);
      var query := StartsQuery(mainCommand, commandArgs);
      TermState(
        Respond(s.history + [HistoryItem(Input, trimmed)], mainCommand, commandArgs, now),
        "",
        s.isProcessing || query,
        if query then "" else s.streamingContent,
        s.commandHistory + [trimmed],
        -1,
        NextTheme(s.theme, mainCommand, commandArgs))
  }

  // ---------------------------------------------------------------------------------
  // Recall navigation

  /** The command the recall position selects, counted back from the newest; the empty
      line for -1. */
  function Shown(s: TermState): string
    requires ValidState(s)
  {
    if s.historyIndex == -1 then "" else s.commandHistory[|s.commandHistory| - 1 - s.historyIndex]
  }

  /** ArrowUp: one step further back, unless the oldest command is already shown. */
  function Up(s: TermState): (r: TermState)
    requires ValidState(s)
    ensures ValidState(r)
  {
    if s.historyIndex < |s.commandHistory| - 1 then
      var newIndex := s.historyIndex + 1;
      s.(historyIndex := newIndex, input := s.commandHistory[|s.commandHistory| - 1 - newIndex])
    else s
  }

  /** ArrowDown: one step forward; from the newest command back to the empty line; nothing
      when no command is selected. */
  function Down(s: TermState): (r: TermState)
    requires ValidState(s)
    ensures ValidState(r)
  {
    if s.historyIndex > 0 then
      var newIndex := s.historyIndex - 1;
      s.(historyIndex := newIndex, input := s.commandHistory[|s.commandHistory| - 1 - newIndex])
    else if s.historyIndex == 0 then s.(historyIndex := -1, input := "")
    else s
  }

  /** handleKeyDown. */
  function KeyDown(s: TermState, key: Key, now: string): TermState
    requires ValidState(s)
  {
    match key
    case Enter => Execute(s, s.input, now)
    case ArrowUp => Up(s)
    case ArrowDown => Down(s)
    case Other => s
  }

  /** onChunk: a piece of the streamed answer is appended. */
  function Chunk(s: TermState, chunk: string): TermState {
    s.(streamingContent := s.streamingContent + chunk)
  }

  // ---------------------------------------------------------------------------------
  // Properties

  /** A blank or all-whitespace line changes nothing. */
  lemma ExecuteBlank(s: TermState, cmd: string, now: string)
    requires AllSpace(cmd)
    ensures Execute(s, cmd, now) == s
  {
  }

  /** A non-blank line is recorded at the end of the recall list, resets the recall
      position and the input line, and -- unless it is `clear` -- leaves the old
      transcript in place followed by exactly one `input` line holding the trimmed text. */
  lemma ExecuteRecords(s: TermState, cmd: string, now: string)
    requires !AllSpace(cmd)
    ensures var r := Execute(s, cmd, now);
      && r.commandHistory == s.commandHistory + [Trim(cmd)]
      && r.historyIndex == -1 && r.input == ""
      && (MainCommand(Trim(cmd)) != "clear" ==>
            && s.history <= r.history
            && |r.history| > |s.history|
            && r.history[|s.history|] == HistoryItem(Input, Trim(cmd))
            && forall i :: |s.history| < i < |r.history| ==> r.history[i].kind != Input)
  {
    var prev := s.history + [HistoryItem(Input, Trim(cmd))];
    var r := Execute(s, cmd, now);
    if MainCommand(Trim(cmd)) != "clear" {
      assert prev <= r.history;
      assert r.history[|s.history|] == prev[|s.history|];
    }
  }

  /** `clear` empties the transcript, its own echo included. */
  lemma ClearEmpties(s: TermState, cmd: string, now: string)
    requires !AllSpace(cmd) && MainCommand(Trim(cmd)) == "clear"
    ensures Execute(s, cmd, now).history == []
  {
  }

  /** `help` appends exactly seven output lines after the echo. */
  lemma HelpAppendsSeven(prev: seq<HistoryItem>, commandArgs: string, now: string)
    ensures var r := Respond(prev, "help", commandArgs, now);
      && |r| == |prev| + 7
      && r[..|prev|] == prev
      && forall i :: |prev| <= i < |r| ==> r[i].kind == Output
  {
    var r := Respond(prev, "help", commandArgs, now);
    assert r[..|prev|] == prev;
  }

  /** `theme X` is accepted exactly when X upper-cased names a member: the theme becomes
      that member and one confirmation line is printed. Otherwise the theme stays and one
      error line lists the members in declaration order. */
  lemma ThemeCommand(prev: seq<HistoryItem>, theme: ThemeColor, commandArgs: string, now: string)
    ensures (exists t :: KeyOf(t) == ToUpper(commandArgs)) ==>
      && KeyOf(NextTheme(theme, "theme", commandArgs)) == ToUpper(commandArgs)
      && Respond(prev, "theme", commandArgs, now)
           == prev + [OutputLine("Theme changed to " + ToUpper(commandArgs))]
    ensures (forall t :: KeyOf(t) != ToUpper(commandArgs)) ==>
      && NextTheme(theme, "theme", commandArgs) == theme
      && Respond(prev, "theme", commandArgs, now)
           == prev + [ErrorLine("Unknown theme. Available: " + "amber, green, cyan, white")]
  {
    ThemeErrorListsMembers();
  }

  /** `theme  <name>` with two spaces is rejected whatever the name: the argument keeps a
      leading space, which no member key has. */
  lemma DoubleSpaceThemeRejected(s: TermState, name: string, now: string)
    requires name != "" && forall k :: 0 <= k < |name| ==> !IsJsSpace(name[k])
    ensures Execute(s, "theme  " + name, now).theme == s.theme
    ensures var h := Execute(s, "theme  " + name, now).history;
      |h| > 0 && h[|h| - 1] == ErrorLine("Unknown theme. Available: " + "amber, green, cyan, white")
  {
    var cmd := "theme  " + name;
    assert "theme  " + name == "theme" + "  " + name;
    assert ' ' !in name by {
      assert forall k :: 0 <= k < |name| ==> name[k] != ' ';
    }
    DoubleSpaceArgument("theme", name);
    assert ToLower("theme") == "theme";
    TrimUnspaced(cmd);
    LeadingSpaceNoKey(name);
    ThemeCommand(s.history + [HistoryItem(Input, cmd)], s.theme, " " + name, now);
  }

  lemma LeadingSpaceNoKey(name: string)
    ensures forall t :: KeyOf(t) != ToUpper(" " + name)
  {
    var u := ToUpper(" " + name);
    assert u[0] == ' ';
    forall t ensures KeyOf(t) != u {
      assert KeyOf(t)[0] != ' ';
    }
  }

  /** `ask` without a question prints the usage line and starts nothing. */
  lemma AskWithoutQuestion(prev: seq<HistoryItem>, now: string)
    ensures Respond(prev, "ask", "", now) == prev + [ErrorLine(AskUsage)]
    ensures !StartsQuery("ask", "")
  {
  }

  /** A token the switch does not know yields exactly one error line naming it. */
  lemma UnknownCommand(prev: seq<HistoryItem>, mainCommand: string, commandArgs: string, now: string)
    requires mainCommand !in {"help", "clear", "date", "whoami", "about", "theme", "ask"}
    ensures Respond(prev, mainCommand, commandArgs, now)
      == prev + [ErrorLine("Command not found: " + mainCommand)]
  {
  }

  /** Every handler keeps the recall index in range and only ever extends the recall list. */
  lemma KeyDownPreserves(s: TermState, key: Key, now: string)
    requires ValidState(s)
    ensures ValidState(KeyDown(s, key, now))
    ensures s.commandHistory <= KeyDown(s, key, now).commandHistory
  {
  }

  lemma ExecutePreserves(s: TermState, cmd: string, now: string)
    requires ValidState(s)
    ensures ValidState(Execute(s, cmd, now))
    ensures s.commandHistory <= Execute(s, cmd, now).commandHistory
  {
  }

  /** ArrowUp below the oldest command moves one step back and shows that command; ArrowDown
      from a selected command moves one step forward and shows the newer command, or the
      empty line from the newest. At the ends of the list the step does nothing, and no
      other field ever changes. */
  lemma RecallShowsSelected(s: TermState)
    requires ValidState(s)
    ensures s.historyIndex < |s.commandHistory| - 1 ==>
      Up(s) == s.(historyIndex := s.historyIndex + 1,
                  input := s.commandHistory[|s.commandHistory| - 2 - s.historyIndex])
    ensures s.historyIndex == |s.commandHistory| - 1 ==> Up(s) == s
    ensures s.historyIndex >= 0 ==>
      Down(s) == s.(historyIndex := s.historyIndex - 1,
                    input := if s.historyIndex == 0 then ""
                             else s.commandHistory[|s.commandHistory| - s.historyIndex])
    ensures s.historyIndex == -1 ==> Down(s) == s
    ensures Up(s).input == Shown(Up(s)) || Up(s) == s
    ensures Down(s).input == Shown(Down(s)) || Down(s) == s
  {
  }

  /** ArrowDown undoes ArrowUp, and ArrowUp undoes ArrowDown, whenever the input line shows
      the selected command. */
  lemma UpDownInverse(s: TermState)
    requires ValidState(s) && s.input == Shown(s)
    ensures s.historyIndex < |s.commandHistory| - 1 ==> Down(Up(s)) == s
    ensures s.historyIndex >= 0 ==> Up(Down(s)) == s
  {
  }

  // ---------------------------------------------------------------------------------
  // The component

  class Terminal {
    var history: seq<HistoryItem>
    var input: string
    var isProcessing: bool
    var streamingContent: string
    var commandHistory: seq<string>
    var historyIndex: int
    var theme: ThemeColor

    function State(): TermState
      reads this
    {
      TermState(history, input, isProcessing, streamingContent, commandHistory, historyIndex, theme)
    }

    ghost predicate Valid()
      reads this
    {
      ValidState(State())
    }

    /** The useState initial values. */
    constructor(initialTheme: ThemeColor)
      ensures Valid()
      ensures State() == TermState([], "", false, "", [], -1, initialTheme)
    {
      history := [];
      input := "";
      isProcessing := false;
      streamingContent := "";
      commandHistory := [];
      historyIndex := -1;
      theme := initialTheme;
    }

    /** The input element's onChange. */
    method SetInput(value: string)
      requires Valid()
      modifies this
      ensures Valid()
      ensures State() == old(State()).(input := value)
    {
      input := value;
    }

    /** executeCommand, each state update applied in program order. */
    method ExecuteCommand(cmd: string, now: string)
      requires Valid()
      modifies this
      ensures Valid()
      ensures State() == Execute(old(State()), cmd, now)
    {
      var trimmedCmd := Trim(cmd);
      if trimmedCmd == "" {
        return;
      }
      history := history + [HistoryItem(Input, trimmedCmd)];
      commandHistory := commandHistory + [trimmedCmd];
      historyIndex := -1;
      input := "";

      var args := Split(trimmedCmd, ' ');
      var mainCommand := ToLower(args[0]);
      var commandArgs := Join(args[1..], " ");
      assert mainCommand == MainCommand(trimmedCmd) && commandArgs == CommandArgs(trimmedCmd);

      Dispatch(mainCommand, commandArgs, now);
    }

    /** The switch on the command word, applied to the transcript that holds the echo. */
    method Dispatch(mainCommand: string, commandArgs: string, now: string)
      modifies this
      ensures State() == old(State()).(
        history := Respond(old(history), mainCommand, commandArgs, now),
        theme := NextTheme(old(theme), mainCommand, commandArgs),
        isProcessing := old(isProcessing) || StartsQuery(mainCommand, commandArgs),
        streamingContent :=
          if StartsQuery(mainCommand, commandArgs) then "" else old(streamingContent))
    {
      if mainCommand == "help" {
        history := history + HelpLines;
      } else if mainCommand == "clear" {
        history := [];
      } else if mainCommand == "date" {
        history := history + [OutputLine(now)];
      } else if mainCommand == "whoami" {
        history := history + [OutputLine("guest@baudrate-v1")];
      } else if mainCommand == "about" {
        history := history + AboutLines;
      } else if mainCommand == "theme" {
        var newTheme := ToUpper(commandArgs);
        UpperCaseHasPropertyIffKey(commandArgs);
        if HasProperty(newTheme) {
          var cast := AcceptedTheme(commandArgs);
          theme := cast.value;
          history := history + [OutputLine("Theme changed to " + newTheme)];
        } else {
          history := history + [ErrorLine(ThemeErrorMessage())];
        }
      } else if mainCommand == "ask" {
        if commandArgs == "" {
          history := history + [ErrorLine(AskUsage)];
        } else {
          isProcessing := true;
          streamingContent := "";
        }
      } else {
        history := history + [ErrorLine("Command not found: " + mainCommand)];
      }
    }

    /** handleKeyDown. */
    method HandleKeyDown(key: Key, now: string)
      requires Valid()
      modifies this
      ensures Valid()
      ensures State() == KeyDown(old(State()), key, now)
    {
      if key == Enter {
        ExecuteCommand(input, now);
      } else if key == ArrowUp {
        if historyIndex < |commandHistory| - 1 {
          var newIndex := historyIndex + 1;
          historyIndex := newIndex;
          input := commandHistory[|commandHistory| - 1 - newIndex];
        }
      } else if key == ArrowDown {
        if historyIndex > 0 {
          var newIndex := historyIndex - 1;
          historyIndex := newIndex;
          input := commandHistory[|commandHistory| - 1 - newIndex];
        } else if historyIndex == 0 {
          historyIndex := -1;
          input := "";
        }
      }
    }

    /** The onChunk callback of a running query. */
    method ReceiveChunk(chunk: string)
      requires Valid()
      modifies this
      ensures Valid()
      ensures State() == Chunk(old(State()), chunk)
    {
      streamingContent := streamingContent + chunk;
    }
  }
}
