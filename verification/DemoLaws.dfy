/**
 * Laws of the line editor's input: how it is split does not matter, line
 * endings are interchangeable, and the history is what was submitted.
 */
module DemoLaws {
  import opened Common
  import opened Terminals
  import opened DemoEditor

  // -------------------------------------------------------------------- splitting

  lemma Appended<T>(a: seq<T>, b: seq<T>, c: seq<T>)
    ensures a + b + c == a + (b + c) && a + [] == a && [] + a == a
  {}

  /** The first character of an input, and the rest. */
  lemma WriteFirst(e: Editor, c: char, rest: string)
    requires WellFormed(e)
    ensures var next := Consume(e, c);
            WellFormed(next.0) &&
            WriteAll(e, [c] + rest) == (WriteAll(next.0, rest).0, next.1 + WriteAll(next.0, rest).1)
  {
    FlagsKeep(e, "", false);
    ConsumeKeeps(e, c);
    hide WellFormed, Consume;
    assert ([c] + rest)[1..] == rest;
  }

  /** Writing `a + b` is writing `a` and then `b`. */
  lemma {:induction false} WriteConcat(e: Editor, a: string, b: string)
    requires WellFormed(e)
    ensures var first := WriteAll(e, a);
            var second := WriteAll(first.0, b);
            WriteAll(e, a + b) == (second.0, first.1 + second.1)
    decreases |a|
  {
    var second := WriteAll(WriteAll(e, a).0, b);
    if a == "" {
      Appended(b, "", "");
      Appended(second.1, "", "");
    } else {
      FlagsKeep(e, "", false);
      hide WellFormed, Consume, WriteAll;
      var next := Consume(e, a[0]);
      assert a == [a[0]] + a[1..];
      Appended([a[0]], a[1..], b);
      WriteFirst(e, a[0], a[1..]);
      WriteFirst(e, a[0], a[1..] + b);
      WriteConcat(next.0, a[1..], b);
      Appended(next.1, WriteAll(next.0, a[1..]).1, second.1);
    }
  }

  // ----------------------------------------------------------------- line endings

  /** CR LF and CR both become LF. */
  function Normalise(s: string): string
    decreases |s|
  {
    if s == "" then ""
    else if CRLF <= s then "\n" + Normalise(s[2..])
    else if s[0] == '\r' then "\n" + Normalise(s[1..])
    else [s[0]] + Normalise(s[1..])
  }

  function Unflagged(e: Editor): Editor {
    e.(ignoreNextLineFeed := false)
  }

  /** Same output, and the same state but for the flag that swallows a line feed. */
  ghost predicate Alike(r: (Editor, string), s: (Editor, string)) {
    r.1 == s.1 && Unflagged(r.0) == Unflagged(s.0)
  }

  lemma FlagMattersOnlyToLineFeed(e: Editor, s: string)
    requires WellFormed(e) && e.escapeSequence == "" && ESC !in s && (s == "" || s[0] != '\n')
    ensures WellFormed(Unflagged(e)) && Alike(WriteAll(e, s), WriteAll(Unflagged(e), s))
  {
    FlagsKeep(e, "", false);
    if s != "" {
      assert s[0] in s;
      assert Consume(e, s[0]) == Consume(Unflagged(e), s[0]) by {
        hide Perform, WellFormed, KeyAction;
        KeyIgnoresFlag(e, s[0]);
      }
      hide WellFormed, Consume;
    }
  }

  lemma KeyIgnoresFlag(e: Editor, c: char)
    ensures KeyAction(e, c) == KeyAction(Unflagged(e), c)
  {}

  lemma StaysIdle(e: Editor, c: char)
    requires WellFormed(e) && e.escapeSequence == "" && c != ESC
    ensures Consume(e, c).0.escapeSequence == ""
    ensures c != '\r' ==> !Consume(e, c).0.ignoreNextLineFeed
  {
    PerformKeepsModes(e.(ignoreNextLineFeed := c == '\r'), KeyAction(e, c));
    hide KeyAction, Perform;
  }

  lemma PerformKeepsModes(e: Editor, a: Action)
    requires e.cursor <= |e.line| && e.historyIndex <= |e.history| && Fits(e, a)
    ensures Perform(e, a).0.escapeSequence == e.escapeSequence
    ensures Perform(e, a).0.ignoreNextLineFeed == e.ignoreNextLineFeed
    ensures Perform(e, a).0.wording == e.wording
    ensures !a.SubmitLine? ==> Perform(e, a).0.history == e.history
  {}

  /** Carriage return, alone or before a line feed, does what a line feed does. */
  lemma LineEndsAgree(e: Editor)
    requires WellFormed(e) && e.escapeSequence == "" && !e.ignoreNextLineFeed
    ensures Alike(Consume(e, '\r'), Consume(e, '\n'))
    ensures var returned := Consume(e, '\r').0;
            WellFormed(returned) && returned.escapeSequence == "" &&
            Consume(returned, '\n') == (Unflagged(returned), "")
  {
    ConsumeKeeps(e, '\r');
    hide WellFormed, Execute, Response, Trim, Remember, PROMPT;
  }

  /**
   * For input without escape characters, from a state that is not inside an
   * escape sequence or after a carriage return, normalising line endings changes
   * neither the output nor the state the editor is left in.
   */
  lemma {:induction false} LineEndingsAreInterchangeable(e: Editor, s: string)
    requires WellFormed(e) && e.escapeSequence == "" && !e.ignoreNextLineFeed && ESC !in s
    ensures Alike(WriteAll(e, s), WriteAll(e, Normalise(s)))
    decreases |s|
  {
    FlagsKeep(e, "", false);
    hide WellFormed, Consume, WriteAll;
    if s == "" {
    } else if s[0] == '\r' {
      ReturnIsLineFeed(e, s);
    } else {
      WriteFirst(e, s[0], s[1..]);
      WriteFirst(e, s[0], Normalise(s[1..]));
      StaysIdle(e, s[0]);
      LineEndingsAreInterchangeable(Consume(e, s[0]).0, s[1..]);
      assert s == [s[0]] + s[1..];
    }
  }

  /** A line feed right after a carriage return is swallowed. */
  lemma PairIsReturn(e: Editor, rest: string)
    requires WellFormed(e) && e.escapeSequence == "" && !e.ignoreNextLineFeed
    ensures var fed := Consume(e, '\n').0;
            WellFormed(fed) && WriteAll(e, CRLF + rest) == WriteAll(e, "\n" + rest)
  {
    var returned := Consume(e, '\r');
    FlagsKeep(e, "", false);
    LineEndsAgree(e);
    hide WellFormed, Consume, WriteAll;
    var tail := WriteAll(Unflagged(returned.0), rest).1;
    Appended("\r", "\n", rest);
    WriteFirst(e, '\r', "\n" + rest);
    WriteFirst(returned.0, '\n', rest);
    WriteFirst(e, '\n', rest);
    Appended(tail, "", "");
  }

  lemma {:induction false} ReturnIsLineFeed(e: Editor, s: string)
    requires WellFormed(e) && e.escapeSequence == "" && !e.ignoreNextLineFeed && ESC !in s
    requires s != "" && s[0] == '\r'
    ensures Alike(WriteAll(e, s), WriteAll(e, Normalise(s)))
    decreases |s|, 0
  {
    var returned := Consume(e, '\r').0;
    var fed := Consume(e, '\n').0;
    var rest := if CRLF <= s then s[2..] else s[1..];
    FlagsKeep(e, "", false);
    StaysIdle(e, '\n');
    LineEndsAgree(e);
    FlagsKeep(returned, "", false);
    hide WellFormed, Consume, WriteAll;
    WriteFirst(e, '\n', Normalise(rest));
    WriteFirst(e, '\n', rest);
    LineEndingsAreInterchangeable(fed, rest);
    assert forall i :: 0 <= i < |rest| ==> rest[i] in s;
    if CRLF <= s {
      assert s == CRLF + rest;
      PairIsReturn(e, rest);
    } else {
      assert s == "\r" + rest;
      WriteFirst(e, '\r', rest);
      FlagMattersOnlyToLineFeed(returned, rest);
    }
  }

  // ---------------------------------------------------------------------- history

  ghost predicate Submits(e: Editor, c: char) {
    e.escapeSequence == "" && (c == '\r' || (c == '\n' && !e.ignoreNextLineFeed))
  }

  /** The command a character submits, if it submits one. */
  ghost function Submitted(e: Editor, c: char): seq<string> {
    if Submits(e, c) then [Trim(e.line)] else []
  }

  /** The commands submitted while `s` is written, in order. */
  ghost function Commands(e: Editor, s: string): seq<string>
    requires WellFormed(e)
    decreases |s|
  {
    if s == "" then []
    else
      ConsumeKeeps(e, s[0]);
      Submitted(e, s[0]) + Commands(Consume(e, s[0]).0, s[1..])
  }

  function NonEmpty(commands: seq<string>): seq<string> {
    if commands == [] then []
    else NonEmpty(commands[..|commands| - 1]) +
         if commands[|commands| - 1] == "" then [] else [commands[|commands| - 1]]
  }

  /** Each command that differs from the one just before it. */
  function DropRepeats(commands: seq<string>): seq<string> {
    var n := |commands|;
    if n == 0 then []
    else DropRepeats(commands[..n - 1]) +
         if n > 1 && commands[n - 2] == commands[n - 1] then [] else [commands[n - 1]]
  }

  function Recent(commands: seq<string>): seq<string> {
    LastN(DropRepeats(NonEmpty(commands)), 50)
  }

  lemma {:induction false} DropRepeatsKeepsLast(commands: seq<string>)
    requires commands != []
    ensures var d := DropRepeats(commands);
            d != [] && d[|d| - 1] == commands[|commands| - 1]
  {
    if |commands| > 1 {
      DropRepeatsKeepsLast(commands[..|commands| - 1]);
    }
  }

  lemma NonEmptyGrows(commands: seq<string>, command: string)
    ensures NonEmpty(commands + [command]) == NonEmpty(commands) + if command == "" then [] else [command]
  {}

  lemma DropRepeatsGrows(past: seq<string>, command: string)
    ensures var kept := DropRepeats(past);
            DropRepeats(past + [command]) ==
            if kept != [] && kept[|kept| - 1] == command then kept else kept + [command]
  {
    assert (past + [command])[..|past|] == past;
    if past != [] {
      DropRepeatsKeepsLast(past);
    }
  }

  lemma RememberIsRecent(commands: seq<string>, command: string)
    ensures Remember(Recent(commands), command) == Recent(commands + [command])
  {
    NonEmptyGrows(commands, command);
    DropRepeatsGrows(NonEmpty(commands), command);
    hide NonEmpty, DropRepeats;
    assert NonEmpty(commands) + [] == NonEmpty(commands);
  }

  lemma PerformRemembers(e: Editor, a: Action)
    requires WellFormed(e) && Fits(e, a)
    ensures Perform(e, a).0.history == if a.SubmitLine? then Remember(e.history, Trim(e.line)) else e.history
  {}

  lemma OnlyLineEndsSubmit(e: Editor, c: char, sequence: string)
    ensures KeyAction(e, c).SubmitLine? <==> c == '\r' || c == '\n'
    ensures !EscapeAction(e, sequence).SubmitLine?
  {}

  lemma ConsumeRemembers(e: Editor, c: char)
    requires WellFormed(e)
    ensures Consume(e, c).0.history == if Submits(e, c) then Remember(e.history, Trim(e.line)) else e.history
  {
    FlagsKeep(e, "", c == '\r');
    var idle := e.(escapeSequence := "");
    var keyed := e.(ignoreNextLineFeed := c == '\r');
    var sequence := e.escapeSequence + [c];
    hide WellFormed, Perform, EscapeAction, KeyAction, Units, Remember, Trim;
    OnlyLineEndsSubmit(e, c, sequence);
    OnlyLineEndsSubmit(idle, c, sequence);
    PerformRemembers(keyed, KeyAction(e, c));
    PerformRemembers(idle, EscapeAction(idle, sequence));
  }

  lemma CommandsFirst(e: Editor, c: char, rest: string)
    requires WellFormed(e)
    ensures WellFormed(Consume(e, c).0)
    ensures Commands(e, [c] + rest) ==
            Submitted(e, c) + Commands(Consume(e, c).0, rest)
  {
    FlagsKeep(e, "", false);
    ConsumeKeeps(e, c);
    hide WellFormed, Consume, Submitted;
    assert ([c] + rest)[1..] == rest;
  }

  lemma NothingWritten(e: Editor)
    requires WellFormed(e)
    ensures WriteAll(e, "").0 == e && Commands(e, "") == []
  {}

  lemma StaysRecent(e: Editor, past: seq<string>, c: char)
    requires WellFormed(e) && e.history == Recent(past)
    ensures Consume(e, c).0.history == Recent(past + Submitted(e, c))
  {
    ConsumeRemembers(e, c);
    hide WellFormed, Consume, Recent, Remember, Submits, Trim;
    if Submits(e, c) {
      RememberIsRecent(past, Trim(e.line));
    } else {
      Appended(past, [], []);
    }
  }

  /**
   * The history is the last fifty of the submitted commands, leaving out empty
   * ones and those that repeat their predecessor.
   */
  lemma {:induction false} HistoryIsRecent(e: Editor, past: seq<string>, s: string)
    requires WellFormed(e) && e.history == Recent(past)
    ensures WriteAll(e, s).0.history == Recent(past + Commands(e, s))
    decreases |s|
  {
    FlagsKeep(e, "", false);
    hide WellFormed, Consume, Recent, Remember, Submits, Submitted, Trim, WriteAll, Commands;
    if s == "" {
      NothingWritten(e);
      Appended(past, [], []);
    } else {
      var next, command, rest := Consume(e, s[0]).0, Submitted(e, s[0]), s[1..];
      StaysRecent(e, past, s[0]);
      assert s == [s[0]] + rest;
      WriteFirst(e, s[0], rest);
      CommandsFirst(e, s[0], rest);
      HistoryIsRecent(next, past + command, rest);
      Appended(past, command, Commands(next, rest));
    }
  }

  // ------------------------------------------------------------- what editing means

  function Before(e: Editor): string
    requires e.cursor <= |e.line|
  {
    e.line[..e.cursor]
  }

  function After(e: Editor): string
    requires e.cursor <= |e.line|
  {
    e.line[e.cursor..]
  }

  /** The entry at a place in the history; past the last one is the empty line. */
  function EntryAt(history: seq<string>, index: int): string {
    if 0 <= index < |history| then history[index] else ""
  }

  function DropLast(s: string): string {
    if s == "" then "" else s[..|s| - 1]
  }

  function DropFirst(s: string): string {
    if s == "" then "" else s[1..]
  }

  /** What each action does to the text on either side of the cursor. */
  ghost predicate EditedAs(e: Editor, a: Action, r: Editor)
    requires e.cursor <= |e.line| && r.cursor <= |r.line|
  {
    match a
    case Type(c) =>
      After(r) == After(e) &&
      Before(r) == if Printable(c) && |e.line| < MAX_LINE_LENGTH then Before(e) + [c] else Before(e)
    case Rubout => After(r) == After(e) && Before(r) == DropLast(Before(e))
    case Delete => Before(r) == Before(e) && After(r) == DropFirst(After(e))
    case EraseToEnd => Before(r) == Before(e) && After(r) == ""
    case EraseToStart => Before(r) == "" && After(r) == After(e)
    case EraseWord => Before(r) <= Before(e) && After(r) == After(e) && WordErased(Before(r), Before(e))
    case MoveTo(position) => r.line == e.line && |Before(r)| == position
    case SubmitLine => r.line == "" && r.historyIndex == |r.history|
    case CancelLine => r.line == "" && r.historyIndex == |r.history|
    case Recall(direction) =>
      var index := e.historyIndex + direction;
      if e.history != [] && 0 <= index <= |e.history| then
        r.historyIndex == index && (index != e.historyIndex ==> Before(r) == EntryAt(e.history, index) && After(r) == "")
      else (direction == 1 || direction == -1) ==> r.line == e.line && r.cursor == e.cursor
    case _ => r.line == e.line && r.cursor == e.cursor
  }

  /** From `start` on, `whole` is a word up to `blanks` and only blanks after it. */
  ghost predicate WordThenBlanks(whole: string, start: nat, blanks: nat) {
    start <= blanks <= |whole| && (blanks == start ==> start == 0) &&
    (forall i :: start <= i < blanks ==> whole[i] != ' ') &&
    (forall i :: blanks <= i < |whole| ==> whole[i] == ' ')
  }

  /** What is missing from `rest` is the last word of `whole` and the blanks after it. */
  ghost predicate WordErased(rest: string, whole: string) {
    (rest == "" || (|rest| <= |whole| && whole[|rest| - 1] == ' ')) &&
    exists blanks: nat :: WordThenBlanks(whole, |rest|, blanks)
  }

  lemma {:induction false} SkipBackStops(line: string, position: nat, blanks: bool)
    requires position <= |line|
    ensures var start := SkipBack(line, position, blanks);
            (forall i :: start <= i < position ==> (line[i] == ' ') == blanks) &&
            (start == 0 || (line[start - 1] == ' ') != blanks)
  {
    if position > 0 && (line[position - 1] == ' ') == blanks {
      SkipBackStops(line, position - 1, blanks);
    }
  }

  lemma WordIsErased(line: string, cursor: nat)
    requires cursor <= |line|
    ensures WordErased(line[..WordStart(line, cursor)], line[..cursor])
  {
    var blanks := SkipBack(line, cursor, true);
    SkipBackStops(line, cursor, true);
    SkipBackStops(line, blanks, false);
    assert WordStart(line, cursor) == SkipBack(line, blanks, false);
    hide SkipBack, WordStart;
    assert WordThenBlanks(line[..cursor], WordStart(line, cursor), blanks);
  }

  lemma WordEditIsRight(e: Editor)
    requires WellFormed(e)
    ensures var r := DeletePreviousWord(e).0;
            r.cursor <= |r.line| && EditedAs(e, EraseWord, r)
  {
    WordIsErased(e.line, e.cursor);
    var start := WordStart(e.line, e.cursor);
    if e.cursor > 0 {
      var r := DeletePreviousWord(e).0;
      assert Before(r) == e.line[..start] && After(r) == After(e);
    }
    hide WordStart, Redraw, WordErased;
  }

  lemma RecallIsRight(e: Editor, direction: int)
    requires WellFormed(e)
    ensures var r := RecallHistory(e, direction).0;
            r.cursor <= |r.line| && EditedAs(e, Recall(direction), r)
  {
    hide Redraw;
  }

  lemma TypingIsRight(e: Editor, c: char)
    requires WellFormed(e)
    ensures Insert(e, c).0.cursor <= |Insert(e, c).0.line| && EditedAs(e, Type(c), Insert(e, c).0)
  {
    hide Redraw;
  }

  lemma ErasingIsRight(e: Editor)
    requires WellFormed(e)
    ensures Backspace(e).0.cursor <= |Backspace(e).0.line| && EditedAs(e, Rubout, Backspace(e).0)
    ensures DeleteAtCursor(e).0.cursor <= |DeleteAtCursor(e).0.line| && EditedAs(e, Delete, DeleteAtCursor(e).0)
  {
    hide Redraw;
  }

  lemma KillingIsRight(e: Editor)
    requires WellFormed(e)
    ensures KillToEnd(e).0.cursor <= |KillToEnd(e).0.line| && EditedAs(e, EraseToEnd, KillToEnd(e).0)
    ensures KillToStart(e).0.cursor <= |KillToStart(e).0.line| && EditedAs(e, EraseToStart, KillToStart(e).0)
  {
    hide Redraw;
  }

  lemma MovingIsRight(e: Editor, position: nat)
    requires WellFormed(e) && position <= |e.line|
    ensures MoveCursor(e, position).0.cursor <= |MoveCursor(e, position).0.line|
    ensures EditedAs(e, MoveTo(position), MoveCursor(e, position).0)
  {
    hide Redraw;
  }

  /** Editing the line does not move the place in the history. */
  lemma EditingKeepsPlace(e: Editor, a: Action)
    requires WellFormed(e) && Fits(e, a) && !a.SubmitLine? && !a.CancelLine? && !a.Recall?
    ensures Perform(e, a).0.historyIndex == e.historyIndex && Perform(e, a).0.history == e.history
  {}

  /** Every action edits the text around the cursor as it should, and only that. */
  lemma EditsAroundCursor(e: Editor, a: Action)
    requires WellFormed(e) && Fits(e, a)
    ensures var r := Perform(e, a).0;
            r.cursor <= |r.line| && EditedAs(e, a, r)
  {
    FlagsKeep(e, "", false);
    hide WellFormed, Insert, Backspace, DeleteAtCursor, DeletePreviousWord, KillToEnd, KillToStart, MoveCursor,
         RecallHistory, Redraw, Execute, Response, Trim, Remember, WordErased;
    match a
    case Type(c) => TypingIsRight(e, c);
    case Rubout => ErasingIsRight(e);
    case Delete => ErasingIsRight(e);
    case EraseToEnd => KillingIsRight(e);
    case EraseToStart => KillingIsRight(e);
    case EraseWord => WordEditIsRight(e);
    case MoveTo(position) => MovingIsRight(e, position);
    case Recall(direction) => RecallIsRight(e, direction);
    case _ =>
  }

  // -------------------------------------------------------------------- round trips

  /** Rubbing out what was just typed undoes it. */
  lemma BackspaceUndoesInsert(e: Editor, c: char)
    requires WellFormed(e) && Printable(c) && |e.line| < MAX_LINE_LENGTH
    ensures var typed := Insert(e, c).0;
            typed.cursor <= |typed.line| && Backspace(typed).0 == e
  {
    var typed := Insert(e, c).0;
    hide Redraw;
    assert typed.line[..typed.cursor - 1] + typed.line[typed.cursor..] == e.line;
  }

  /** An entry stepped back to is left again by stepping forward. */
  lemma RecallReturns(e: Editor)
    requires WellFormed(e) && 0 < e.historyIndex && e.cursor == |e.line|
    requires e.line == if e.historyIndex == |e.history| then "" else e.history[e.historyIndex]
    ensures RecallHistory(RecallHistory(e, -1).0, 1).0 == e
  {}
}
