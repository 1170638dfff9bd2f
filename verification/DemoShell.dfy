/**
 * The demo shell as the program has it: an object whose fields are edited in
 * place, one character at a time. Every method is proved against the editor's
 * functions, so the laws and the display refinement hold of the object.
 */
module DemoShells {
  import opened Common
  import opened Terminals
  import opened DemoEditor
  import opened DemoDisplay
  import opened DemoLaws

  class DemoShell {
    const wording: Wording
    var line: seq<char>
    var cursor: nat
    var history: seq<string>
    var historyIndex: nat
    var escapeSequence: string
    var ignoreNextLineFeed: bool

    ghost function Snapshot(): Editor
      reads this
    {
      Editor(wording, line, cursor, history, historyIndex, escapeSequence, ignoreNextLineFeed)
    }

    ghost predicate Valid()
      reads this
    {
      WellFormed(Snapshot())
    }

    constructor (wording: Wording)
      requires GoodWording(wording)
      ensures Valid() && this.wording == wording
      ensures line == "" && history == [] && escapeSequence == "" && !ignoreNextLineFeed
    {
      this.wording := wording;
      line, cursor, history, historyIndex, escapeSequence, ignoreNextLineFeed := "", 0, [], 0, "", false;
    }

    method Begin() returns (output: string)
      requires Valid()
      modifies this
      ensures Valid() && (Snapshot(), output) == Start(old(Snapshot()))
      ensures forall t :: Clean(t) ==> InSync(FeedAll(t, output), Snapshot())
    {
      ghost var before := Snapshot();
      line := [];
      cursor := 0;
      escapeSequence := "";
      ignoreNextLineFeed := false;
      historyIndex := |history|;
      output := Coloured("1;36", wording.title) + CRLF + Coloured("1;33", wording.notice) + CRLF +
                wording.instructions + CRLF + PROMPT;
      hide InSync, Coloured;
      forall t | Clean(t)
        ensures InSync(FeedAll(t, output), Snapshot())
      {
        StartDisplays(t, before);
      }
    }

    /** Redrawing reads the state and changes none of it. */
    method PaintAgain() returns (output: string)
      requires cursor <= |line|
      ensures output == Redraw(line, cursor)
    {
      output := "\r" + ControlSequence("2", 'K') + PROMPT + line;
      var cellsFromEnd := |line| - cursor;
      if cellsFromEnd > 0 {
        output := output + ControlSequence(Decimal(cellsFromEnd), 'D');
      }
    }

    method Move(position: nat) returns (output: string)
      requires cursor <= |line| && position <= |line|
      modifies this
      ensures (Snapshot(), output) == MoveCursor(old(Snapshot()), position)
    {
      if position == cursor {
        return "";
      }
      cursor := position;
      hide Redraw;
      output := PaintAgain();
    }

    method InsertPrintable(c: char) returns (output: string)
      requires cursor <= |line|
      modifies this
      ensures (Snapshot(), output) == Insert(old(Snapshot()), c)
    {
      if !Printable(c) {
        return "";
      }
      if |line| >= MAX_LINE_LENGTH {
        return BELL;
      }
      var append := cursor == |line|;
      line := line[..cursor] + [c] + line[cursor..];
      cursor := cursor + 1;
      hide Redraw;
      if append {
        output := [c];
      } else {
        output := PaintAgain();
      }
    }

    method EraseBackward() returns (output: string)
      requires cursor <= |line|
      modifies this
      ensures (Snapshot(), output) == Backspace(old(Snapshot()))
    {
      if cursor == 0 {
        return BELL;
      }
      var removedFromEnd := cursor == |line|;
      line := line[..cursor - 1] + line[cursor..];
      cursor := cursor - 1;
      hide Redraw;
      if removedFromEnd {
        output := [BS, ' ', BS];
      } else {
        output := PaintAgain();
      }
    }

    method EraseForward() returns (output: string)
      requires cursor <= |line|
      modifies this
      ensures (Snapshot(), output) == DeleteAtCursor(old(Snapshot()))
    {
      if cursor >= |line| {
        return BELL;
      }
      line := line[..cursor] + line[cursor + 1..];
      hide Redraw;
      output := PaintAgain();
    }

    method ErasePreviousWord() returns (output: string)
      requires cursor <= |line|
      modifies this
      ensures (Snapshot(), output) == DeletePreviousWord(old(Snapshot()))
    {
      if cursor == 0 {
        return BELL;
      }
      var start: nat := cursor;
      while start > 0 && line[start - 1] == ' '
        invariant start <= cursor
        invariant SkipBack(line, start, true) == SkipBack(line, cursor, true)
      {
        start := start - 1;
      }
      while start > 0 && line[start - 1] != ' '
        invariant start <= cursor
        invariant SkipBack(line, start, false) == WordStart(line, cursor)
      {
        start := start - 1;
      }
      line := line[..start] + line[cursor..];
      cursor := start;
      hide Redraw;
      output := PaintAgain();
    }

    method Recollect(direction: int) returns (output: string)
      requires historyIndex <= |history|
      modifies this
      ensures (Snapshot(), output) == RecallHistory(old(Snapshot()), direction)
    {
      if |history| == 0 {
        return BELL;
      }
      var wanted := historyIndex + direction;
      var next: nat := if wanted < 0 then 0 else if wanted > |history| then |history| else wanted;
      if next == historyIndex {
        return BELL;
      }
      historyIndex := next;
      line := if next == |history| then "" else history[next];
      cursor := |line|;
      hide Redraw;
      output := PaintAgain();
    }

    method Abandon() returns (output: string)
      modifies this
      ensures (Snapshot(), output) == Cancel(old(Snapshot()))
    {
      output := "^C" + CRLF + PROMPT;
      line := [];
      cursor := 0;
      historyIndex := |history|;
    }

    method Run() returns (output: string)
      modifies this
      ensures (Snapshot(), output) == Submit(old(Snapshot()))
    {
      hide Trim, Execute, CRLF, PROMPT;
      var command := Trim(line);
      output := CRLF;
      if command != "" {
        if history == [] || history[|history| - 1] != command {
          history := history + [command];
        }
        if |history| > MAX_HISTORY_LENGTH {
          history := history[1..];
        }
      }
      line := [];
      cursor := 0;
      historyIndex := |history|;
      var result := Execute(command, history, wording);
      if result.Clear? {
        output := output + CLEAR;
      } else if result.Text? && result.text != "" {
        output := output + (result.text + CRLF);
      } else {
        assert output + "" == output;
      }
      output := output + PROMPT;
    }

    method Act(a: Action) returns (output: string)
      requires cursor <= |line| && historyIndex <= |history| && Fits(Snapshot(), a)
      modifies this
      ensures (Snapshot(), output) == Perform(old(Snapshot()), a)
    {
      hide Submit, Cancel, MoveCursor, DeletePreviousWord, Backspace, DeleteAtCursor, RecallHistory, Insert, Redraw;
      match a {
        case Nothing => output := "";
        case Ring => output := BELL;
        case SubmitLine => output := Run();
        case CancelLine => output := Abandon();
        case MoveTo(position) => output := Move(position);
        case EraseToEnd =>
          output := "";
          if cursor < |line| {
            line := line[..cursor];
            output := PaintAgain();
          }
        case EraseToStart =>
          output := "";
          if cursor > 0 {
            line := line[cursor..];
            cursor := 0;
            output := PaintAgain();
          }
        case EraseWord => output := ErasePreviousWord();
        case Wipe =>
          var painted := PaintAgain();
          output := CLEAR + painted;
        case Rubout => output := EraseBackward();
        case Delete => output := EraseForward();
        case Recall(direction) => output := Recollect(direction);
        case Type(c) => output := InsertPrintable(c);
      }
    }

    method ConsumeEscapeSequence(c: char) returns (consumed: bool, output: string)
      requires cursor <= |line| && historyIndex <= |history|
      modifies this
      ensures consumed == (old(escapeSequence) != "")
      ensures !consumed ==> Snapshot() == old(Snapshot()) && output == ""
      ensures consumed ==> (Snapshot(), output) == ConsumeEscape(old(Snapshot()), c)
    {
      hide Perform, EscapeAction, Units;
      if escapeSequence == "" {
        return false, "";
      }
      escapeSequence := escapeSequence + [c];
      if Units(escapeSequence) == 2 && c != '[' {
        escapeSequence := "";
        return true, "";
      }
      var complete := Units(escapeSequence) > 2 && IsFinal(c);
      output := "";
      if complete {
        var sequence := escapeSequence;
        escapeSequence := "";
        output := Act(EscapeAction(Editor(wording, line, cursor, history, historyIndex, "", ignoreNextLineFeed), sequence));
      } else if Units(escapeSequence) > MAX_ESCAPE_UNITS {
        escapeSequence := "";
      }
      consumed := true;
    }

    method TakeCharacter(c: char) returns (output: string)
      requires cursor <= |line| && historyIndex <= |history|
      modifies this
      ensures (Snapshot(), output) == Consume(old(Snapshot()), c)
    {
      hide Perform, KeyAction, ConsumeEscape;
      var consumed;
      consumed, output := ConsumeEscapeSequence(c);
      if consumed {
        return;
      }
      if c == ESC {
        escapeSequence := [ESC];
        return;
      }
      if c == '\n' && ignoreNextLineFeed {
        ignoreNextLineFeed := false;
        return;
      }
      if c != '\n' {
        ignoreNextLineFeed := false;
      }
      if c == '\r' {
        ignoreNextLineFeed := true;
      }
      KeyIsPlain(c);
      output := Act(KeyAction(Editor(wording, line, cursor, history, historyIndex, "", ignoreNextLineFeed), c));
    }

    /** What a key asks for depends on the line alone. */
    lemma KeyIsPlain(c: char)
      ensures forall e: Editor, f: Editor :: |e.line| == |f.line| ==> KeyAction(e, c) == KeyAction(f, c)
    {}

    method Write(data: string) returns (output: string)
      requires Valid()
      modifies this
      ensures Valid() && (Snapshot(), output) == WriteAll(old(Snapshot()), data)
      ensures forall t :: InSync(t, old(Snapshot())) ==> InSync(FeedAll(t, output), Snapshot())
    {
      ghost var before := Snapshot();
      output := "";
      var i := 0;
      while i < |data|
        invariant i <= |data| && Valid()
        invariant WriteAll(before, data).0 == WriteAll(Snapshot(), data[i..]).0
        invariant WriteAll(before, data).1 == output + WriteAll(Snapshot(), data[i..]).1
      {
        FlagsKeep(Snapshot(), "", false);
        hide WellFormed, Consume;
        ConsumeKeeps(Snapshot(), data[i]);
        WriteFirst(Snapshot(), data[i], data[i + 1..]);
        assert data[i..] == [data[i]] + data[i + 1..];
        ghost var rest := WriteAll(Consume(Snapshot(), data[i]).0, data[i + 1..]).1;
        Appended(output, Consume(Snapshot(), data[i]).1, rest);
        hide WriteAll;
        var more := TakeCharacter(data[i]);
        output := output + more;
        i := i + 1;
      }
      assert data[i..] == "" && output + "" == output;
      hide InSync, Consume;
      forall t | InSync(t, before)
        ensures InSync(FeedAll(t, output), Snapshot())
      {
        WriteDisplays(t, before, data);
      }
    }
  }
}
