/**
 * The demo shell's line editor as a function from state and character to state
 * and output (demo/demo-websocket.ts). Output is the very text the shell emits.
 */
module DemoEditor {
  import opened Common
  import opened Terminals

  const MAX_LINE_LENGTH: nat := 512
  const MAX_HISTORY_LENGTH: nat := 50
  const MAX_ESCAPE_UNITS: nat := 16

  const CRLF: string := "\r\n"
  const BELL: string := [BEL]

  function Coloured(colour: string, text: string): string {
    ControlSequence(colour, 'm') + text + ControlSequence("0", 'm')
  }

  /** The prompt, with its colours, and the text it leaves on the row. */
  const PROMPT: string := Coloured("1;32", "guest@lit-shell") + ":" + Coloured("1;34", "~") + "$ "
  const PROMPT_TEXT: string := "guest@lit-shell" + ":" + "~" + "$ "

  const CLEAR: string := ControlSequence("2", 'J') + ControlSequence("", 'H')

  /** The shell's fixed texts; `refusal` follows the name of an unknown command. */
  datatype Wording = Wording(
    title: string,
    notice: string,
    instructions: string,
    help: string,
    about: string,
    listing: string,
    readme: string,
    clock: string,
    refusal: string)

  datatype Editor = Editor(
    wording: Wording,
    line: string,
    cursor: nat,
    history: seq<string>,
    historyIndex: nat,
    escapeSequence: string,
    ignoreNextLineFeed: bool)

  // ------------------------------------------------------------------- commands

  /** White space and line terminators as `trim` and `\s` understand them. */
  predicate IsSpace(c: char) {
    c in "\t\n\r \U{b}\U{c}\U{a0}\U{1680}\U{2028}\U{2029}\U{202f}\U{205f}\U{3000}\U{feff}" ||
    0x2000 <= c as int <= 0x200a
  }

  predicate IsLineTerminator(c: char) {
    c == '\n' || c == '\r' || c == '\U{2028}' || c == '\U{2029}'
  }

  function TrimStart(s: string): string {
    if s != "" && IsSpace(s[0]) then TrimStart(s[1..]) else s
  }

  function TrimEnd(s: string): string {
    if s != "" && IsSpace(s[|s| - 1]) then TrimEnd(s[..|s| - 1]) else s
  }

  function Trim(s: string): string {
    TrimEnd(TrimStart(s))
  }

  function FirstWord(s: string): string {
    if s == "" || IsSpace(s[0]) then "" else [s[0]] + FirstWord(s[1..])
  }

  datatype Reply = Silence | Clear | Text(text: string)

  const ECHO: string := "echo"
  const COMMAND: string := "Command \""
  const DIRECTORY: string := "/demo"
  const VISITOR: string := "visitor"

  predicate OnOneLine(s: string) {
    forall i :: 0 <= i < |s| ==> !IsLineTerminator(s[i])
  }

  /** What `/^echo(?:\s+(.*))?$/` captures from a trimmed command. */
  function EchoArgument(command: string): Option<string> {
    if !(ECHO <= command) then None
    else
      var rest := command[|ECHO|..];
      if rest == "" then Some("")
      else if IsSpace(rest[0]) && OnOneLine(TrimStart(rest)) then Some(TrimStart(rest))
      else None
  }

  function PadStart(s: string, width: nat): string {
    if |s| < width then Blanks(width - |s|) + s else s
  }

  function JoinLines(lines: seq<string>): string {
    if lines == [] then "" else if |lines| == 1 then lines[0]
    else JoinLines(lines[..|lines| - 1]) + CRLF + lines[|lines| - 1]
  }

  function HistoryLine(number: nat, entry: string): string {
    PadStart(Decimal(number), 3) + "  " + entry
  }

  function HistoryLines(history: seq<string>): seq<string> {
    seq(|history|, i requires 0 <= i < |history| => HistoryLine(i + 1, history[i]))
  }

  function Execute(command: string, history: seq<string>, wording: Wording): Reply {
    if command == "" then Silence
    else if command == "help" then Text(wording.help)
    else if command == "about" then Text(wording.about)
    else if command == "pwd" then Text(DIRECTORY)
    else if command == "whoami" then Text(VISITOR)
    else if command == "ls" then Text(wording.listing)
    else if command == "cat README.md" then Text(wording.readme)
    else if command == "date" then Text(wording.clock)
    else if command == "history" then Text(JoinLines(HistoryLines(history)))
    else if command == "clear" then Clear
    else if EchoArgument(command).Some? then Text(EchoArgument(command).value)
    else Text(COMMAND + FirstWord(command) + wording.refusal)
  }

  // -------------------------------------------------------------------- editing

  function Redraw(line: string, cursor: nat): string
    requires cursor <= |line|
  {
    "\r" + ControlSequence("2", 'K') + PROMPT + line +
    if cursor < |line| then ControlSequence(Decimal(|line| - cursor), 'D') else ""
  }

  function Repaint(e: Editor): (Editor, string)
    requires e.cursor <= |e.line|
  {
    (e, Redraw(e.line, e.cursor))
  }

  function MoveCursor(e: Editor, position: nat): (Editor, string)
    requires position <= |e.line|
  {
    if position == e.cursor then (e, "") else Repaint(e.(cursor := position))
  }

  function Insert(e: Editor, c: char): (Editor, string)
    requires e.cursor <= |e.line|
  {
    if !Printable(c) then (e, "")
    else if |e.line| >= MAX_LINE_LENGTH then (e, BELL)
    else
      var longer := e.(line := e.line[..e.cursor] + [c] + e.line[e.cursor..], cursor := e.cursor + 1);
      if e.cursor == |e.line| then (longer, [c]) else Repaint(longer)
  }

  function Backspace(e: Editor): (Editor, string)
    requires e.cursor <= |e.line|
  {
    if e.cursor == 0 then (e, BELL)
    else
      var shorter := e.(line := e.line[..e.cursor - 1] + e.line[e.cursor..], cursor := e.cursor - 1);
      if e.cursor == |e.line| then (shorter, [BS, ' ', BS]) else Repaint(shorter)
  }

  function DeleteAtCursor(e: Editor): (Editor, string)
    requires e.cursor <= |e.line|
  {
    if e.cursor >= |e.line| then (e, BELL)
    else Repaint(e.(line := e.line[..e.cursor] + e.line[e.cursor + 1..]))
  }

  function SkipBack(line: string, position: nat, blanks: bool): (start: nat)
    requires position <= |line|
    ensures start <= position
  {
    if position > 0 && (line[position - 1] == ' ') == blanks then SkipBack(line, position - 1, blanks) else position
  }

  /** The start of the word before the cursor, over the blanks behind it. */
  function WordStart(line: string, cursor: nat): (start: nat)
    requires cursor <= |line|
    ensures start <= cursor
  {
    SkipBack(line, SkipBack(line, cursor, true), false)
  }

  function DeletePreviousWord(e: Editor): (Editor, string)
    requires e.cursor <= |e.line|
  {
    if e.cursor == 0 then (e, BELL)
    else
      var start := WordStart(e.line, e.cursor);
      Repaint(e.(line := e.line[..start] + e.line[e.cursor..], cursor := start))
  }

  function KillToEnd(e: Editor): (Editor, string)
    requires e.cursor <= |e.line|
  {
    if e.cursor < |e.line| then Repaint(e.(line := e.line[..e.cursor])) else (e, "")
  }

  function KillToStart(e: Editor): (Editor, string)
    requires e.cursor <= |e.line|
  {
    if e.cursor > 0 then Repaint(e.(line := e.line[e.cursor..], cursor := 0)) else (e, "")
  }

  function ClearScreen(e: Editor): (Editor, string)
    requires e.cursor <= |e.line|
  {
    (e, CLEAR + Redraw(e.line, e.cursor))
  }

  /** `direction` is -1 or 1; the position after the last entry is the empty line. */
  function RecallHistory(e: Editor, direction: int): (Editor, string)
    requires e.historyIndex <= |e.history|
  {
    var wanted := e.historyIndex + direction;
    var next := if wanted < 0 then 0 else if wanted > |e.history| then |e.history| else wanted;
    if e.history == [] || next == e.historyIndex then (e, BELL)
    else
      var line := if next == |e.history| then "" else e.history[next];
      Repaint(e.(historyIndex := next, line := line, cursor := |line|))
  }

  function EmptyLine(e: Editor): Editor {
    e.(line := "", cursor := 0, historyIndex := |e.history|)
  }

  function Cancel(e: Editor): (Editor, string) {
    (EmptyLine(e), "^C" + CRLF + PROMPT)
  }

  function Remember(history: seq<string>, command: string): seq<string> {
    if command == "" then history
    else
      var pushed := if history != [] && history[|history| - 1] == command then history else history + [command];
      if |pushed| > MAX_HISTORY_LENGTH then pushed[1..] else pushed
  }

  function Response(reply: Reply): string {
    match reply
    case Silence => ""
    case Clear => CLEAR
    case Text(text) => if text == "" then "" else text + CRLF
  }

  function Submit(e: Editor): (Editor, string) {
    var command := Trim(e.line);
    var history := Remember(e.history, command);
    (EmptyLine(e.(history := history)), CRLF + Response(Execute(command, history, e.wording)) + PROMPT)
  }

  /** `start`: the welcome text and a first prompt; the history survives a restart. */
  function Start(e: Editor): (Editor, string) {
    (EmptyLine(e).(escapeSequence := "", ignoreNextLineFeed := false),
     Coloured("1;36", e.wording.title) + CRLF + Coloured("1;33", e.wording.notice) + CRLF +
     e.wording.instructions + CRLF + PROMPT)
  }

  // ----------------------------------------------------------------- characters

  /** Length in UTF-16 code units, in which the escape limit is counted. */
  function Units(s: string): nat {
    if s == "" then 0 else Units(s[..|s| - 1]) + if s[|s| - 1] as int > 0xffff then 2 else 1
  }

  function Sequence(rest: string): string {
    [ESC, '['] + rest
  }

  /** What a control character or a completed escape sequence asks for. */
  datatype Action =
    | Nothing | Ring | SubmitLine | CancelLine | MoveTo(position: nat) | EraseToEnd | EraseToStart | EraseWord
    | Wipe | Rubout | Delete | Recall(direction: int) | Type(c: char)

  ghost predicate Fits(e: Editor, a: Action) {
    a.MoveTo? ==> a.position <= |e.line|
  }

  function EscapeAction(e: Editor, sequence: string): (a: Action)
    ensures e.cursor <= |e.line| ==> Fits(e, a)
  {
    if sequence == Sequence("A") then Recall(-1)
    else if sequence == Sequence("B") then Recall(1)
    else if sequence == Sequence("C") then MoveTo(Min(e.cursor + 1, |e.line|))
    else if sequence == Sequence("D") then MoveTo(if e.cursor > 0 then e.cursor - 1 else 0)
    else if sequence == Sequence("H") || sequence == Sequence("1~") then MoveTo(0)
    else if sequence == Sequence("F") || sequence == Sequence("4~") then MoveTo(|e.line|)
    else if sequence == Sequence("3~") then Delete
    else Nothing
  }

  function KeyAction(e: Editor, c: char): (a: Action)
    ensures Fits(e, a)
  {
    if c == '\r' || c == '\n' then SubmitLine
    else if c == '\U{3}' then CancelLine
    else if c == '\U{1}' then MoveTo(0)
    else if c == '\U{5}' then MoveTo(|e.line|)
    else if c == '\U{b}' then EraseToEnd
    else if c == '\U{15}' then EraseToStart
    else if c == '\U{17}' then EraseWord
    else if c == '\U{c}' then Wipe
    else if c == BS || c == '\U{7f}' then Rubout
    else if c == '\U{4}' then Delete
    else if c == '\t' then Ring
    else Type(c)
  }

  function Perform(e: Editor, a: Action): (Editor, string)
    requires e.cursor <= |e.line| && e.historyIndex <= |e.history| && Fits(e, a)
  {
    match a
    case Nothing => (e, "")
    case Ring => (e, BELL)
    case SubmitLine => Submit(e)
    case CancelLine => Cancel(e)
    case MoveTo(position) => MoveCursor(e, position)
    case EraseToEnd => KillToEnd(e)
    case EraseToStart => KillToStart(e)
    case EraseWord => DeletePreviousWord(e)
    case Wipe => ClearScreen(e)
    case Rubout => Backspace(e)
    case Delete => DeleteAtCursor(e)
    case Recall(direction) => RecallHistory(e, direction)
    case Type(c) => Insert(e, c)
  }

  function ConsumeEscape(e: Editor, c: char): (Editor, string)
    requires e.cursor <= |e.line| && e.historyIndex <= |e.history|
  {
    var sequence := e.escapeSequence + [c];
    var idle := e.(escapeSequence := "");
    if Units(sequence) == 2 && c != '[' then (idle, "")
    else if Units(sequence) > 2 && IsFinal(c) then Perform(idle, EscapeAction(idle, sequence))
    else if Units(sequence) > MAX_ESCAPE_UNITS then (idle, "")
    else (e.(escapeSequence := sequence), "")
  }

  function Consume(e: Editor, c: char): (Editor, string)
    requires e.cursor <= |e.line| && e.historyIndex <= |e.history|
  {
    if e.escapeSequence != "" then ConsumeEscape(e, c)
    else if c == ESC then (e.(escapeSequence := [ESC]), "")
    else if c == '\n' && e.ignoreNextLineFeed then (e.(ignoreNextLineFeed := false), "")
    else Perform(e.(ignoreNextLineFeed := c == '\r'), KeyAction(e, c))
  }

  // -------------------------------------------------------------------- invariant

  ghost predicate GoodEntry(entry: string) {
    0 < |entry| <= MAX_LINE_LENGTH && AllPrintable(entry)
  }

  /** Text that a terminal merely prints: no control characters but line ends. */
  ghost predicate GoodWording(w: Wording) {
    AllPrintable(w.title) && AllPrintable(w.notice) && AllTame(w.instructions) &&
    AllTame(w.help) && AllTame(w.about) && AllTame(w.listing) && AllTame(w.readme) && AllTame(w.clock) &&
    AllTame(w.refusal)
  }

  ghost predicate WellFormed(e: Editor) {
    GoodWording(e.wording) &&
    e.cursor <= |e.line| <= MAX_LINE_LENGTH && AllPrintable(e.line) &&
    e.historyIndex <= |e.history| <= MAX_HISTORY_LENGTH &&
    forall i :: 0 <= i < |e.history| ==> GoodEntry(e.history[i])
  }

  lemma {:induction false} TrimStartIsSuffix(s: string)
    ensures IsSuffix(TrimStart(s), s)
  {
    if s != "" && IsSpace(s[0]) {
      TrimStartIsSuffix(s[1..]);
    }
  }

  lemma {:induction false} TrimEndIsPrefix(s: string)
    ensures TrimEnd(s) <= s
  {
    if s != "" && IsSpace(s[|s| - 1]) {
      TrimEndIsPrefix(s[..|s| - 1]);
    }
  }

  lemma TrimKeepsPrintable(s: string)
    requires AllPrintable(s)
    ensures AllPrintable(Trim(s)) && |Trim(s)| <= |s|
  {
    TrimStartIsSuffix(s);
    TrimEndIsPrefix(TrimStart(s));
    hide TrimStart, TrimEnd;
    assert forall i :: 0 <= i < |TrimStart(s)| ==> TrimStart(s)[i] == s[|s| - |TrimStart(s)| + i];
  }

  lemma SubmitKeeps(e: Editor)
    requires WellFormed(e)
    ensures WellFormed(Submit(e).0)
  {
    TrimKeepsPrintable(e.line);
  }

  lemma EditKeeps(e: Editor, c: char)
    requires WellFormed(e)
    ensures WellFormed(Insert(e, c).0) && WellFormed(Backspace(e).0) && WellFormed(DeleteAtCursor(e).0)
  {}

  lemma KillKeeps(e: Editor)
    requires WellFormed(e)
    ensures WellFormed(DeletePreviousWord(e).0) && WellFormed(KillToEnd(e).0) && WellFormed(KillToStart(e).0)
  {
    var start := WordStart(e.line, e.cursor);
    hide WordStart;
  }

  lemma MoveKeeps(e: Editor, position: nat)
    requires WellFormed(e) && position <= |e.line|
    ensures WellFormed(MoveCursor(e, position).0)
  {}

  lemma RecallKeeps(e: Editor, direction: int)
    requires WellFormed(e)
    ensures WellFormed(RecallHistory(e, direction).0)
  {}

  lemma FlagsKeep(e: Editor, escapeSequence: string, ignoreNextLineFeed: bool)
    requires WellFormed(e)
    ensures WellFormed(e.(escapeSequence := escapeSequence)) && WellFormed(e.(ignoreNextLineFeed := ignoreNextLineFeed))
    ensures e.cursor <= |e.line| && e.historyIndex <= |e.history|
  {}

  lemma CancelKeeps(e: Editor)
    requires WellFormed(e)
    ensures WellFormed(Cancel(e).0) && WellFormed(ClearScreen(e).0)
  {}

  lemma PerformKeeps(e: Editor, a: Action)
    requires WellFormed(e) && Fits(e, a)
    ensures WellFormed(Perform(e, a).0)
  {
    FlagsKeep(e, "", true);
    hide WellFormed, Submit, Insert, Backspace, DeleteAtCursor, DeletePreviousWord, KillToEnd, KillToStart, MoveCursor,
         ClearScreen, Cancel, RecallHistory;
    match a
    case Nothing =>
    case Ring =>
    case SubmitLine => SubmitKeeps(e);
    case CancelLine => CancelKeeps(e);
    case MoveTo(position) => MoveKeeps(e, position);
    case EraseToEnd => KillKeeps(e);
    case EraseToStart => KillKeeps(e);
    case EraseWord => KillKeeps(e);
    case Wipe => CancelKeeps(e);
    case Rubout => EditKeeps(e, ' ');
    case Delete => EditKeeps(e, ' ');
    case Recall(direction) => RecallKeeps(e, direction);
    case Type(c) => EditKeeps(e, c);
  }

  lemma ConsumeKeeps(e: Editor, c: char)
    requires WellFormed(e)
    ensures WellFormed(Consume(e, c).0)
  {
    var idle := e.(escapeSequence := "");
    var keyed := e.(ignoreNextLineFeed := c == '\r');
    FlagsKeep(e, "", c == '\r');
    FlagsKeep(e, [ESC], false);
    FlagsKeep(e, e.escapeSequence + [c], false);
    hide WellFormed, Perform, EscapeAction, KeyAction, Units;
    PerformKeeps(idle, EscapeAction(idle, e.escapeSequence + [c]));
    PerformKeeps(keyed, KeyAction(e, c));
  }

  /** `write` on a whole input: the final state and all output. */
  function WriteAll(e: Editor, data: string): (r: (Editor, string))
    requires WellFormed(e)
    ensures WellFormed(r.0)
    decreases |data|
  {
    if data == "" then (e, "")
    else
      ConsumeKeeps(e, data[0]);
      var (next, output) := Consume(e, data[0]);
      var (last, more) := WriteAll(next, data[1..]);
      (last, output + more)
  }
}
