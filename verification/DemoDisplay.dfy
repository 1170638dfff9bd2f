/**
 * Display refinement: whatever is typed, the row the terminal shows is the
 * prompt followed by the editor's line, with the cursor where the editor has it.
 */
module DemoDisplay {
  import opened Common
  import opened Terminals
  import opened DemoEditor

  ghost predicate Shows(row: string, text: string) {
    forall k: nat :: CellAt(row, k) == CellAt(text, k)
  }

  ghost predicate Displays(t: Terminal, line: string, cursor: nat) {
    Clean(t) && t.col == |PROMPT_TEXT| + cursor && Shows(RowAt(t), PROMPT_TEXT + line)
  }

  ghost predicate InSync(t: Terminal, e: Editor) {
    Displays(t, e.line, e.cursor)
  }

  // --------------------------------------------------------------------- prompt

  lemma FeedColoured(t: Terminal, colour: string, text: string)
    requires t.parser == Ground && AllParameters(colour) && AllPrintable(text)
    ensures FeedAll(t, Coloured(colour, text)) == FeedAll(t, text)
  {
    hide ControlSequence;
    FeedColour(t, colour);
    FeedText(t, text);
    FeedConcat(t, ControlSequence(colour, 'm') + text, ControlSequence("0", 'm'));
    FeedConcat(t, ControlSequence(colour, 'm'), text);
    FeedColour(FeedAll(t, text), "0");
  }

  const USER: string := "guest@lit-shell"

  lemma PromptParts()
    ensures AllPrintable(USER) && AllPrintable("~") && AllPrintable(":") && AllPrintable("$ ")
    ensures AllParameters("1;32") && AllParameters("1;34") && AllParameters("0")
    ensures PROMPT == Coloured("1;32", USER) + ":" + Coloured("1;34", "~") + "$ "
    ensures PROMPT_TEXT == USER + ":" + "~" + "$ " && AllPrintable(PROMPT_TEXT)
  {}

  /** The colours of the prompt leave no trace on the row. */
  lemma FeedPrompt(t: Terminal)
    requires t.parser == Ground
    ensures FeedAll(t, PROMPT) == FeedAll(t, PROMPT_TEXT)
  {
    PromptParts();
    hide PROMPT, PROMPT_TEXT, Coloured, USER;
    var first, third := Coloured("1;32", USER), Coloured("1;34", "~");
    var afterUser := FeedAll(t, USER);
    var afterColon := FeedAll(afterUser, ":");
    FeedColoured(t, "1;32", USER);
    FeedText(t, USER);
    FeedText(afterUser, ":");
    FeedColoured(afterColon, "1;34", "~");
    FeedConcat(t, first, ":");
    FeedConcat(t, first + ":", third);
    FeedConcat(t, first + ":" + third, "$ ");
    FeedConcat(t, USER, ":");
    FeedConcat(t, USER + ":", "~");
    FeedConcat(t, USER + ":" + "~", "$ ");
  }

  lemma PromptShown(t: Terminal)
    requires Fresh(t)
    ensures Displays(FeedAll(t, PROMPT), "", 0)
  {
    PromptParts();
    FeedPrompt(t);
    hide PROMPT, PROMPT_TEXT;
    FeedText(t, PROMPT_TEXT);
    assert PROMPT_TEXT + "" == PROMPT_TEXT;
  }

  // --------------------------------------------------------------------- redraw

  lemma EraseRow(t: Terminal)
    requires Clean(t)
    ensures Fresh(FeedAll(t, "\r" + ControlSequence("2", 'K')))
  {
    FeedConcat(t, "\r", ControlSequence("2", 'K'));
    FeedOne(t, '\r');
    FeedControl(t.(col := 0), "2", 'K');
  }

  lemma CursorLeft(t: Terminal, n: nat)
    requires t.parser == Ground && 0 < n <= t.col
    ensures FeedAll(t, ControlSequence(Decimal(n), 'D')) == t.(col := t.col - n)
  {
    DecimalReadsBack(n);
    hide Decimal, Number;
    assert AllParameters(Decimal(n));
    FeedControl(t, Decimal(n), 'D');
  }

  lemma LineWritten(t: Terminal, line: string)
    requires Displays(t, "", 0) && AllPrintable(line)
    ensures Displays(FeedAll(t, line), line, |line|)
  {
    FeedText(t, line);
    hide PROMPT_TEXT, FeedAll;
    var after := FeedAll(t, line);
    forall k: nat
      ensures CellAt(RowAt(after), k) == CellAt(PROMPT_TEXT + line, k)
    {
      assert CellAt(RowAt(t), k) == CellAt(PROMPT_TEXT + "", k);
    }
  }

  /** A full redraw puts any clean row in step with any line and cursor. */
  lemma RedrawDisplays(t: Terminal, line: string, cursor: nat)
    requires Clean(t) && AllPrintable(line) && cursor <= |line|
    ensures Displays(FeedAll(t, Redraw(line, cursor)), line, cursor)
  {
    var erase := "\r" + ControlSequence("2", 'K');
    var back := if cursor < |line| then ControlSequence(Decimal(|line| - cursor), 'D') else "";
    hide PROMPT, PROMPT_TEXT, ControlSequence, Decimal;
    var erased := FeedAll(t, erase);
    var prompted := FeedAll(erased, PROMPT);
    var written := FeedAll(prompted, line);
    EraseRow(t);
    PromptShown(erased);
    LineWritten(prompted, line);
    FeedConcat(t, erase, PROMPT);
    FeedConcat(t, erase + PROMPT, line);
    FeedConcat(t, erase + PROMPT + line, back);
    if cursor < |line| {
      CursorLeft(written, |line| - cursor);
    }
  }

  // -------------------------------------------------------------- cheap painting

  lemma BellShows(t: Terminal)
    requires t.parser == Ground
    ensures FeedAll(t, BELL) == t
  {}

  /** Appending a character at the end needs no redraw. */
  lemma AppendDisplays(t: Terminal, line: string, c: char)
    requires Displays(t, line, |line|) && Printable(c)
    ensures Displays(FeedAll(t, [c]), line + [c], |line| + 1)
  {}

  /** Rubbing out the last character with backspace, blank, backspace needs none either. */
  lemma RuboutDisplays(t: Terminal, line: string)
    requires line != "" && Displays(t, line, |line|)
    ensures Displays(FeedAll(t, [BS, ' ', BS]), line[..|line| - 1], |line| - 1)
  {
    hide PROMPT_TEXT;
    var col := t.col - 1;
    var row := PutCell(RowAt(t), col, ' ');
    var blanked := PutRow(t, row).(col := col);
    assert FeedAll(t, [BS, ' ', BS]) == blanked by {
      assert [BS, ' ', BS][1..] == [' ', BS] && [' ', BS][1..] == [BS];
      FeedOne(PutRow(t, row).(col := t.col), BS);
    }
    forall k: nat
      ensures CellAt(row, k) == CellAt(PROMPT_TEXT + line[..|line| - 1], k)
    {
      assert CellAt(RowAt(t), k) == CellAt(PROMPT_TEXT + line, k);
    }
  }

  // -------------------------------------------------------------- command output

  lemma {:induction false} JoinedTame(lines: seq<string>)
    requires forall i :: 0 <= i < |lines| ==> AllTame(lines[i])
    ensures AllTame(JoinLines(lines))
  {
    if |lines| > 1 {
      JoinedTame(lines[..|lines| - 1]);
    }
  }

  lemma PrintableIsTame(s: string)
    requires AllPrintable(s)
    ensures AllTame(s)
  {}

  lemma TameConcat(a: string, b: string)
    requires AllTame(a) && AllTame(b)
    ensures AllTame(a + b)
  {}

  lemma HistoryLineTame(number: nat, entry: string)
    requires AllPrintable(entry)
    ensures AllTame(HistoryLine(number, entry))
  {
    DecimalReadsBack(number);
    hide Decimal, Number;
    PrintableIsTame(entry);
    TameConcat(PadStart(Decimal(number), 3), "  ");
    TameConcat(PadStart(Decimal(number), 3) + "  ", entry);
  }

  lemma HistoryTame(history: seq<string>)
    requires forall i :: 0 <= i < |history| ==> AllPrintable(history[i])
    ensures AllTame(JoinLines(HistoryLines(history)))
  {
    hide HistoryLine, AllTame, AllPrintable, JoinLines;
    forall i | 0 <= i < |history|
      ensures AllTame(HistoryLines(history)[i])
    {
      HistoryLineTame(i + 1, history[i]);
    }
    JoinedTame(HistoryLines(history));
  }

  lemma {:induction false} FirstWordIsPrefix(s: string)
    ensures FirstWord(s) <= s
  {
    if s != "" && !IsSpace(s[0]) {
      FirstWordIsPrefix(s[1..]);
    }
  }

  lemma EchoTame(command: string)
    requires AllPrintable(command) && EchoArgument(command).Some?
    ensures AllTame(EchoArgument(command).value)
  {
    var rest := command[|ECHO|..];
    TrimStartIsSuffix(rest);
    assert forall i :: 0 <= i < |TrimStart(rest)| ==> TrimStart(rest)[i] == rest[|rest| - |TrimStart(rest)| + i];
    hide TrimStart, IsSpace, ECHO;
  }

  lemma FixedRepliesTame()
    ensures AllTame(COMMAND) && AllTame(DIRECTORY) && AllTame(VISITOR)
  {}

  lemma FirstWordTame(command: string)
    requires AllPrintable(command)
    ensures AllTame(FirstWord(command))
  {}

  /** No reply can move the terminal out of step: it holds only text and line ends. */
  lemma RepliesAreTame(command: string, history: seq<string>, wording: Wording)
    requires AllPrintable(command) && GoodWording(wording)
    requires forall i :: 0 <= i < |history| ==> AllPrintable(history[i])
    ensures Execute(command, history, wording).Text? ==> AllTame(Execute(command, history, wording).text)
  {
    FixedRepliesTame();
    hide AllTame, AllPrintable, COMMAND, DIRECTORY, VISITOR;
    HistoryTame(history);
    FirstWordTame(command);
    if EchoArgument(command).Some? {
      EchoTame(command);
    }
    hide HistoryLines, JoinLines, FirstWord, EchoArgument;
    TameConcat(COMMAND, FirstWord(command));
    TameConcat(COMMAND + FirstWord(command), wording.refusal);
  }

  // --------------------------------------------------------------- whole actions

  lemma ClearMakesFresh(t: Terminal)
    requires Clean(t)
    ensures Fresh(FeedAll(t, CLEAR))
  {
    FeedControl(t, "2", 'J');
    FeedConcat(t, ControlSequence("2", 'J'), ControlSequence("", 'H'));
    FeedControl(t.(rows := []), "", 'H');
  }

  /** Text that ends its line, then a prompt. */
  lemma PromptAfterText(t: Terminal, text: string)
    requires Clean(t) && AllTame(text)
    ensures Displays(FeedAll(t, text + CRLF + PROMPT), "", 0)
  {
    hide AllTame, PROMPT, PROMPT_TEXT;
    FeedTame(t, text);
    FeedConcat(t, text + CRLF, PROMPT);
    FeedConcat(t, text, CRLF);
    FeedNewline(FeedAll(t, text));
    PromptShown(FeedAll(t, text + CRLF));
  }

  lemma CancelDisplays(t: Terminal, e: Editor)
    requires InSync(t, e)
    ensures InSync(FeedAll(t, Cancel(e).1), Cancel(e).0)
  {
    hide PROMPT, PROMPT_TEXT;
    PromptAfterText(t, "^C");
  }

  lemma ClearScreenDisplays(t: Terminal, e: Editor)
    requires InSync(t, e) && WellFormed(e)
    ensures InSync(FeedAll(t, ClearScreen(e).1), e)
  {
    hide CLEAR, Redraw, PROMPT_TEXT;
    ClearMakesFresh(t);
    FeedConcat(t, CLEAR, Redraw(e.line, e.cursor));
    RedrawDisplays(FeedAll(t, CLEAR), e.line, e.cursor);
  }

  lemma ResponseDisplays(t: Terminal, reply: Reply)
    requires Fresh(t) && (reply.Text? ==> AllTame(reply.text))
    ensures Displays(FeedAll(t, Response(reply) + PROMPT), "", 0)
  {
    hide CLEAR, PROMPT, PROMPT_TEXT, AllTame;
    match reply
    case Silence =>
      assert Response(reply) + PROMPT == PROMPT;
      PromptShown(t);
    case Clear =>
      ClearMakesFresh(t);
      FeedConcat(t, CLEAR, PROMPT);
      PromptShown(FeedAll(t, CLEAR));
    case Text(text) =>
      if text == "" {
        assert Response(reply) + PROMPT == PROMPT;
        PromptShown(t);
      } else {
        PromptAfterText(t, text);
      }
  }

  lemma EntriesPrintable(history: seq<string>, command: string)
    requires forall i :: 0 <= i < |history| ==> AllPrintable(history[i])
    requires AllPrintable(command)
    ensures forall i :: 0 <= i < |Remember(history, command)| ==> AllPrintable(Remember(history, command)[i])
  {}

  lemma SubmitDisplays(t: Terminal, e: Editor)
    requires InSync(t, e) && WellFormed(e)
    ensures InSync(FeedAll(t, Submit(e).1), Submit(e).0)
  {
    TrimKeepsPrintable(e.line);
    hide AllPrintable, GoodWording, PROMPT, PROMPT_TEXT, Execute, Response, Trim, Remember, AllTame;
    var command := Trim(e.line);
    var history := Remember(e.history, command);
    var reply := Execute(command, history, e.wording);
    EntriesPrintable(e.history, command);
    RepliesAreTame(command, history, e.wording);
    FeedNewline(t);
    assert CRLF + Response(reply) + PROMPT == CRLF + (Response(reply) + PROMPT);
    FeedConcat(t, CRLF, Response(reply) + PROMPT);
    ResponseDisplays(FeedAll(t, CRLF), reply);
  }

  lemma RepaintDisplays(t: Terminal, e: Editor)
    requires Clean(t) && WellFormed(e)
    ensures InSync(FeedAll(t, Repaint(e).1), e)
  {
    hide Redraw, PROMPT_TEXT;
    RedrawDisplays(t, e.line, e.cursor);
  }

  lemma InsertDisplays(t: Terminal, e: Editor, c: char)
    requires InSync(t, e) && WellFormed(e)
    ensures InSync(FeedAll(t, Insert(e, c).1), Insert(e, c).0)
  {
    BellShows(t);
    EditKeeps(e, c);
    var longer := e.(line := e.line[..e.cursor] + [c] + e.line[e.cursor..], cursor := e.cursor + 1);
    hide Displays, WellFormed, BELL, FeedAll;
    if Printable(c) && |e.line| < MAX_LINE_LENGTH {
      if e.cursor == |e.line| {
        assert longer.line == e.line + [c];
        AppendDisplays(t, e.line, c);
      } else {
        SyncedIsClean(t, e);
        RepaintDisplays(t, longer);
      }
    } else {
      FeedNothing(t);
    }
  }

  lemma FeedNothing(t: Terminal)
    ensures FeedAll(t, "") == t
  {}

  lemma SyncedIsClean(t: Terminal, e: Editor)
    requires InSync(t, e)
    ensures Clean(t)
  {}

  lemma BackspaceDisplays(t: Terminal, e: Editor)
    requires InSync(t, e) && WellFormed(e)
    ensures InSync(FeedAll(t, Backspace(e).1), Backspace(e).0)
  {
    BellShows(t);
    EditKeeps(e, ' ');
    SyncedIsClean(t, e);
    hide Displays, WellFormed, BELL, FeedAll;
    if e.cursor > 0 {
      var shorter := e.(line := e.line[..e.cursor - 1] + e.line[e.cursor..], cursor := e.cursor - 1);
      if e.cursor == |e.line| {
        assert shorter.line == e.line[..|e.line| - 1];
        RuboutDisplays(t, e.line);
      } else {
        RepaintDisplays(t, shorter);
      }
    }
  }

  /** Everything else that edits the line rings, repaints or changes nothing. */
  lemma PaintedDisplays(t: Terminal, e: Editor, r: (Editor, string))
    requires InSync(t, e) && WellFormed(r.0)
    requires r == (e, "") || r == (e, BELL) || r == Repaint(r.0)
    ensures InSync(FeedAll(t, r.1), r.0)
  {
    BellShows(t);
    FeedNothing(t);
    SyncedIsClean(t, e);
    hide Displays, BELL, FeedAll;
    if r == Repaint(r.0) {
      RepaintDisplays(t, r.0);
    }
  }

  lemma PerformDisplays(t: Terminal, e: Editor, a: Action)
    requires InSync(t, e) && WellFormed(e) && Fits(e, a)
    ensures InSync(FeedAll(t, Perform(e, a).1), Perform(e, a).0)
  {
    PerformKeeps(e, a);
    hide Displays, WellFormed, BELL, FeedAll, Redraw, Submit, Cancel, Insert, Backspace, CLEAR, WordStart;
    match a
    case SubmitLine => SubmitDisplays(t, e);
    case CancelLine => CancelDisplays(t, e);
    case Wipe => ClearScreenDisplays(t, e);
    case Rubout => BackspaceDisplays(t, e);
    case Type(c) => InsertDisplays(t, e, c);
    case Nothing => PaintedDisplays(t, e, Perform(e, a));
    case Ring => PaintedDisplays(t, e, Perform(e, a));
    case MoveTo(position) => PaintedDisplays(t, e, Perform(e, a));
    case EraseToEnd => PaintedDisplays(t, e, Perform(e, a));
    case EraseToStart => PaintedDisplays(t, e, Perform(e, a));
    case EraseWord => PaintedDisplays(t, e, Perform(e, a));
    case Delete => PaintedDisplays(t, e, Perform(e, a));
    case Recall(direction) => PaintedDisplays(t, e, Perform(e, a));
  }

  /** One character of input keeps the terminal in step with the editor. */
  lemma ConsumeDisplays(t: Terminal, e: Editor, c: char)
    requires InSync(t, e) && WellFormed(e)
    ensures InSync(FeedAll(t, Consume(e, c).1), Consume(e, c).0)
  {
    var idle := e.(escapeSequence := "");
    var keyed := e.(ignoreNextLineFeed := c == '\r');
    FlagsKeep(e, "", c == '\r');
    FeedNothing(t);
    hide WellFormed, Displays, Perform, EscapeAction, KeyAction, Units, FeedAll;
    PerformDisplays(t, idle, EscapeAction(idle, e.escapeSequence + [c]));
    PerformDisplays(t, keyed, KeyAction(e, c));
  }

  /**
   * Display refinement: whatever is typed, and however it is split into
   * writes, the row shows the prompt and the line and nothing else.
   */
  lemma {:induction false} WriteDisplays(t: Terminal, e: Editor, data: string)
    requires InSync(t, e) && WellFormed(e)
    ensures InSync(FeedAll(t, WriteAll(e, data).1), WriteAll(e, data).0)
    decreases |data|
  {
    FlagsKeep(e, "", false);
    hide Displays, WellFormed, Consume;
    if data == "" {
    } else {
      var (next, output) := Consume(e, data[0]);
      ConsumeKeeps(e, data[0]);
      ConsumeDisplays(t, e, data[0]);
      WriteDisplays(FeedAll(t, output), next, data[1..]);
      FeedConcat(t, output, WriteAll(next, data[1..]).1);
    }
  }

  lemma FeedColouredLine(t: Terminal, colour: string, text: string)
    requires Clean(t) && AllParameters(colour) && AllPrintable(text)
    ensures Clean(FeedAll(t, Coloured(colour, text) + CRLF))
  {
    FeedColoured(t, colour, text);
    PrintableIsTame(text);
    hide Coloured;
    FeedTame(t, text);
    FeedConcat(t, Coloured(colour, text), CRLF);
    FeedNewline(FeedAll(t, text));
  }

  /** Starting the shell, on whatever row, puts the terminal in step with it. */
  lemma StartDisplays(t: Terminal, e: Editor)
    requires Clean(t) && GoodWording(e.wording)
    ensures InSync(FeedAll(t, Start(e).1), Start(e).0)
  {
    var title, notice := Coloured("1;36", e.wording.title) + CRLF, Coloured("1;33", e.wording.notice) + CRLF;
    var rest := e.wording.instructions + CRLF + PROMPT;
    hide PROMPT, PROMPT_TEXT, AllPrintable, AllTame;
    FeedColouredLine(t, "1;36", e.wording.title);
    FeedColouredLine(FeedAll(t, title), "1;33", e.wording.notice);
    hide Coloured;
    FeedConcat(t, title, notice);
    FeedConcat(t, title + notice, rest);
    assert Start(e).1 == title + notice + rest;
    PromptAfterText(FeedAll(t, title + notice), e.wording.instructions);
  }

  /** The cheap painting of one typed or rubbed-out character agrees with a full redraw of the new line. */
  lemma CheapPaintingAgrees(t: Terminal, e: Editor, c: char)
    requires InSync(t, e) && WellFormed(e)
    ensures var after := Perform(e, KeyAction(e, c)).0;
            KeyAction(e, c).Type? || KeyAction(e, c).Rubout? ==>
            var cheap := FeedAll(t, Perform(e, KeyAction(e, c)).1);
            var full := FeedAll(t, Redraw(after.line, after.cursor));
            cheap.col == full.col && Shows(RowAt(cheap), RowAt(full))
  {
    var a := KeyAction(e, c);
    PerformKeeps(e, a);
    PerformDisplays(t, e, a);
    var after := Perform(e, a).0;
    RedrawDisplays(t, after.line, after.cursor);
    hide Redraw, Perform, KeyAction, FeedAll, PROMPT_TEXT;
  }
}
