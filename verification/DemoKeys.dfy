/**
 * The demo shell by its keys: what each character and each escape sequence does
 * to the text around the cursor, when the bell rings, and what the commands print.
 */
module DemoKeys {
  import opened Common
  import opened Terminals
  import opened DemoEditor
  import opened DemoLaws

  ghost predicate Around(r: Editor, before: string, after: string)
    requires r.cursor <= |r.line|
  {
    Before(r) == before && After(r) == after
  }

  // ------------------------------------------------------------------------- keys

  /** What a key does to the line, the cursor and the place in the history. */
  ghost predicate Keyed(e: Editor, c: char, r: Editor)
    requires e.cursor <= |e.line| && r.cursor <= |r.line|
  {
    var before, after := Before(e), After(e);
    if c == '\r' || c == '\n' || c == '\U{3}' then r.line == "" && r.historyIndex == |r.history|
    else
      r.historyIndex == e.historyIndex && r.history == e.history &&
      if c == '\U{1}' then Around(r, "", e.line)
      else if c == '\U{5}' then Around(r, e.line, "")
      else if c == '\U{b}' then Around(r, before, "")
      else if c == '\U{15}' then Around(r, "", after)
      else if c == '\U{17}' then After(r) == after && Before(r) <= before && WordErased(Before(r), before)
      else if c == '\U{8}' || c == '\U{7f}' then Around(r, DropLast(before), after)
      else if c == '\U{4}' then Around(r, before, DropFirst(after))
      else if c as int < 0x20 || 0x7f <= c as int <= 0x9f || |e.line| >= 512 then Around(r, before, after)
      else Around(r, before + [c], after)
  }

  /** In terms of actions: what was done to the text, and that only a new line changes the place in the history. */
  ghost predicate Acted(e: Editor, a: Action, r: Editor) {
    e.cursor <= |e.line| && r.cursor <= |r.line| && EditedAs(e, a, r) &&
    (!a.SubmitLine? && !a.CancelLine? ==> r.historyIndex == e.historyIndex && r.history == e.history)
  }

  lemma MovingKeys(e: Editor, c: char, r: Editor)
    requires Acted(e, KeyAction(e, c), r) && KeyAction(e, c).MoveTo?
    ensures Keyed(e, c, r)
  {}

  lemma TypingKeys(e: Editor, c: char, r: Editor)
    requires Acted(e, KeyAction(e, c), r) && KeyAction(e, c).Type?
    ensures Keyed(e, c, r)
  {
    hide WordErased;
  }

  lemma OtherKeys(e: Editor, c: char, r: Editor)
    requires Acted(e, KeyAction(e, c), r) && !KeyAction(e, c).Type? && !KeyAction(e, c).MoveTo?
    ensures Keyed(e, c, r)
  {
    hide WordErased;
  }

  lemma ActedIsKeyed(e: Editor, c: char, r: Editor)
    requires Acted(e, KeyAction(e, c), r)
    ensures e.cursor <= |e.line| && r.cursor <= |r.line| && Keyed(e, c, r)
  {
    hide Keyed, KeyAction, EditedAs;
    if KeyAction(e, c).MoveTo? {
      MovingKeys(e, c, r);
    } else if KeyAction(e, c).Type? {
      TypingKeys(e, c, r);
    } else {
      OtherKeys(e, c, r);
    }
  }

  lemma ActionsAct(e: Editor, a: Action)
    requires WellFormed(e) && Fits(e, a) && !a.Recall?
    ensures e.cursor <= |e.line| && Acted(e, a, Perform(e, a).0)
  {
    FlagsKeep(e, "", false);
    EditsAroundCursor(e, a);
    if !a.SubmitLine? && !a.CancelLine? {
      EditingKeepsPlace(e, a);
    }
    hide WellFormed, Perform, EditedAs;
  }

  lemma KeyActs(e: Editor, c: char)
    ensures !KeyAction(e, c).Recall? && Fits(e, KeyAction(e, c))
  {}

  lemma FlagIsNoKey(e: Editor, c: char, flag: bool)
    ensures KeyAction(e.(ignoreNextLineFeed := flag), c) == KeyAction(e, c)
  {}

  lemma SameKeyed(e: Editor, f: Editor, c: char, r: Editor)
    requires e.cursor <= |e.line| && f == e.(ignoreNextLineFeed := f.ignoreNextLineFeed)
    requires r.cursor <= |r.line| && Keyed(f, c, r)
    ensures Keyed(e, c, r)
  {
    hide WordErased;
  }

  /**
   * Outside an escape sequence every key does what it should, except that a line feed
   * right after a carriage return does nothing.
   */
  lemma KeysEdit(e: Editor, c: char)
    requires WellFormed(e) && e.escapeSequence == "" && c != '\U{1b}'
    ensures var r := Consume(e, c).0;
      if c == '\n' && e.ignoreNextLineFeed then r == e.(ignoreNextLineFeed := false)
      else r.cursor <= |r.line| && Keyed(e, c, r) && r.escapeSequence == "" && r.ignoreNextLineFeed == (c == '\r')
  {
    FlagsKeep(e, "", c == '\r');
    if !(c == '\n' && e.ignoreNextLineFeed) {
      var keyed := e.(ignoreNextLineFeed := c == '\r');
      var a := KeyAction(keyed, c);
      KeyActs(keyed, c);
      FlagIsNoKey(e, c, c == '\r');
      ActionsAct(keyed, a);
      PerformKeepsModes(keyed, a);
      assert Consume(e, c) == Perform(keyed, a);
      hide WellFormed, Perform, KeyAction, Keyed, Acted, Consume;
      ActedIsKeyed(keyed, c, Perform(keyed, a).0);
      SameKeyed(e, keyed, c, Perform(keyed, a).0);
    }
  }

  // --------------------------------------------------------------------- the bell

  lemma RedrawIsNoBell(line: string, cursor: nat)
    requires cursor <= |line|
    ensures Redraw(line, cursor) != BELL && CLEAR + Redraw(line, cursor) != BELL
  {
    assert Redraw(line, cursor)[0] == '\r';
    assert (CLEAR + Redraw(line, cursor))[0] == ESC;
  }

  lemma SubmittingIsNoBell(e: Editor)
    ensures Submit(e).1 != BELL && Cancel(e).1 != BELL
  {
    assert Submit(e).1[0] == '\r' && Cancel(e).1[0] == '^';
  }

  /** When an action only rings the bell. */
  predicate Rings(e: Editor, a: Action) {
    match a
    case Ring => true
    case Rubout => e.cursor == 0
    case EraseWord => e.cursor == 0
    case Delete => e.cursor >= |e.line|
    case Type(c) => Printable(c) && |e.line| >= MAX_LINE_LENGTH
    case Recall(direction) =>
      e.history == [] || (e.historyIndex == 0 && direction < 0) || (e.historyIndex == |e.history| && direction > 0) ||
      direction == 0
    case _ => false
  }

  lemma EditRings(e: Editor, c: char)
    requires e.cursor <= |e.line|
    ensures Insert(e, c).1 == BELL <==> Printable(c) && |e.line| >= MAX_LINE_LENGTH
    ensures Backspace(e).1 == BELL <==> e.cursor == 0
    ensures DeleteAtCursor(e).1 == BELL <==> e.cursor >= |e.line|
    ensures DeletePreviousWord(e).1 == BELL <==> e.cursor == 0
  {
    NeverBell();
    hide Repaint, WordStart;
  }

  lemma MoveRings(e: Editor, position: nat)
    requires e.cursor <= |e.line| && position <= |e.line|
    ensures MoveCursor(e, position).1 != BELL && KillToEnd(e).1 != BELL && KillToStart(e).1 != BELL
    ensures ClearScreen(e).1 != BELL
  {
    NeverBell();
    NoOtherBell(e);
    hide Repaint, ClearScreen;
  }

  lemma RecallRings(e: Editor, direction: int)
    requires e.historyIndex <= |e.history|
    ensures RecallHistory(e, direction).1 == BELL <==> Rings(e, Recall(direction))
  {
    NeverBell();
    hide Repaint;
  }

  lemma NoOtherBell(e: Editor)
    requires e.cursor <= |e.line|
    ensures Repaint(e).1 != BELL && ClearScreen(e).1 != BELL
  {
    RedrawIsNoBell(e.line, e.cursor);
  }

  lemma NeverBell()
    ensures forall r: Editor :: r.cursor <= |r.line| ==> Repaint(r).1 != BELL
  {
    forall r: Editor | r.cursor <= |r.line|
      ensures Repaint(r).1 != BELL
    {
      NoOtherBell(r);
    }
  }

  lemma ActionRings(e: Editor, a: Action)
    requires e.cursor <= |e.line| && e.historyIndex <= |e.history| && Fits(e, a)
    ensures Perform(e, a).1 == BELL <==> Rings(e, a)
  {
    hide Submit, Cancel, Insert, Backspace, DeleteAtCursor, DeletePreviousWord, MoveCursor, KillToEnd, KillToStart,
         ClearScreen, RecallHistory;
    match a
    case SubmitLine => SubmittingIsNoBell(e);
    case CancelLine => SubmittingIsNoBell(e);
    case MoveTo(position) => MoveRings(e, position);
    case EraseToEnd => MoveRings(e, 0);
    case EraseToStart => MoveRings(e, 0);
    case Wipe => MoveRings(e, 0);
    case Recall(direction) => RecallRings(e, direction);
    case Type(c) => EditRings(e, c);
    case Rubout => EditRings(e, ' ');
    case EraseWord => EditRings(e, ' ');
    case Delete => EditRings(e, ' ');
    case Nothing => assert |""| != |BELL|;
    case Ring =>
  }

  /** The bell rings exactly when there is nothing to erase, no room to type, or a tab. */
  lemma BellRingsIff(e: Editor, c: char)
    requires WellFormed(e) && e.escapeSequence == "" && c != '\U{1b}'
    ensures Consume(e, c).1 == BELL <==>
      c == '\t' ||
      ((c == '\U{8}' || c == '\U{7f}' || c == '\U{17}') && e.cursor == 0) ||
      (c == '\U{4}' && e.cursor == |e.line|) ||
      (Printable(c) && |e.line| >= 512)
  {
    var keyed := e.(ignoreNextLineFeed := c == '\r');
    KeyActs(keyed, c);
    FlagIsNoKey(e, c, c == '\r');
    ActionRings(keyed, KeyAction(e, c));
    hide Perform;
  }

  // ------------------------------------------------------------- escape sequences

  /** Characters that neither end a sequence nor take two code units. */
  ghost predicate NonFinal(s: string) {
    forall i :: 0 <= i < |s| ==> s[i] as int < 0x40
  }

  lemma {:induction false} UnitsOfNarrow(s: string)
    requires forall i :: 0 <= i < |s| ==> s[i] as int <= 0xffff
    ensures Units(s) == |s|
  {
    if s != "" {
      UnitsOfNarrow(s[..|s| - 1]);
    }
  }

  lemma CollectsOne(e: Editor, done: string, c: char)
    requires e.cursor <= |e.line| && e.historyIndex <= |e.history| && NonFinal(done) && c as int < 0x40
    ensures Consume(e.(escapeSequence := Sequence(done)), c) ==
            if |done| >= 14 then (e.(escapeSequence := ""), "")
            else (e.(escapeSequence := Sequence(done + [c])), "")
  {
    assert Sequence(done) + [c] == Sequence(done + [c]);
    UnitsOfNarrow(Sequence(done + [c]));
    hide Units;
  }

  lemma CompletesOne(e: Editor, done: string, f: char)
    requires e.cursor <= |e.line| && e.historyIndex <= |e.history| && e.escapeSequence == ""
    requires NonFinal(done) && 0x40 <= f as int <= 0x7e
    ensures Consume(e.(escapeSequence := Sequence(done)), f) == Perform(e, EscapeAction(e, Sequence(done + [f])))
  {
    assert Sequence(done) + [f] == Sequence(done + [f]);
    UnitsOfNarrow(Sequence(done + [f]));
    assert e.(escapeSequence := Sequence(done)).(escapeSequence := "") == e;
    hide Units, Perform, EscapeAction;
  }

  lemma StartsSequence(e: Editor)
    requires e.cursor <= |e.line| && e.historyIndex <= |e.history| && e.escapeSequence == ""
    ensures Consume(e, '\U{1b}') == (e.(escapeSequence := ['\U{1b}']), "")
    ensures Consume(e.(escapeSequence := ['\U{1b}']), '[') == (e.(escapeSequence := Sequence("")), "")
  {
    assert ['\U{1b}'] + ['['] == Sequence("");
    UnitsOfNarrow(Sequence(""));
    hide Units, Perform;
  }

  lemma WriteLast(e: Editor, c: char)
    requires WellFormed(e)
    ensures e.cursor <= |e.line| && e.historyIndex <= |e.history| && WriteAll(e, [c]) == Consume(e, c)
  {
    FlagsKeep(e, "", false);
    ConsumeKeeps(e, c);
    var next := Consume(e, c);
    WriteFirst(e, c, "");
    Appended(next.1, "", "");
    assert [c] + "" == [c];
    hide WellFormed, Consume;
  }

  /** A character that prints nothing only changes the state the rest is written in. */
  lemma WriteSilent(e: Editor, c: char, next: Editor, rest: string)
    requires WellFormed(e) && WellFormed(next)
    requires e.cursor <= |e.line| && e.historyIndex <= |e.history| && Consume(e, c) == (next, "")
    ensures WriteAll(e, [c] + rest) == WriteAll(next, rest)
  {
    hide WellFormed, Consume, WriteAll;
    WriteFirst(e, c, rest);
    Appended(WriteAll(next, rest).1, "", "");
  }

  lemma {:induction false} SequenceCollects(e: Editor, done: string, rest: string, f: char)
    requires WellFormed(e) && e.escapeSequence == "" && NonFinal(done) && NonFinal(rest) && |done| + |rest| <= 14
    requires 0x40 <= f as int <= 0x7e
    ensures WellFormed(e.(escapeSequence := Sequence(done)))
    ensures e.cursor <= |e.line| && e.historyIndex <= |e.history|
    ensures WriteAll(e.(escapeSequence := Sequence(done)), rest + [f]) ==
            Perform(e, EscapeAction(e, Sequence(done + (rest + [f]))))
    decreases |rest|
  {
    FlagsKeep(e, Sequence(done), false);
    var started := e.(escapeSequence := Sequence(done));
    hide WellFormed, Consume, Perform, EscapeAction, WriteAll, Sequence, Units;
    if rest == "" {
      CompletesOne(e, done, f);
      WriteLast(started, f);
      assert rest + [f] == [f];
    } else {
      var next := done + [rest[0]];
      CollectsOne(e, done, rest[0]);
      FlagsKeep(e, Sequence(next), false);
      assert next + (rest[1..] + [f]) == done + (rest + [f]);
      assert rest + [f] == [rest[0]] + (rest[1..] + [f]);
      WriteSilent(started, rest[0], e.(escapeSequence := Sequence(next)), rest[1..] + [f]);
      SequenceCollects(e, next, rest[1..], f);
    }
  }

  /**
   * ESC [, then up to fourteen parameter characters and a final one, is one key: nothing is
   * printed or changed on the way.
   */
  lemma SequenceIsOneKey(e: Editor, parameters: string, f: char)
    requires WellFormed(e) && e.escapeSequence == "" && NonFinal(parameters) && |parameters| <= 14
    requires 0x40 <= f as int <= 0x7e
    ensures e.cursor <= |e.line| && e.historyIndex <= |e.history|
    ensures WriteAll(e, ['\U{1b}', '['] + (parameters + [f])) ==
            Perform(e, EscapeAction(e, ['\U{1b}', '['] + (parameters + [f])))
  {
    var rest := parameters + [f];
    FlagsKeep(e, "", false);
    FlagsKeep(e, ['\U{1b}'], false);
    FlagsKeep(e, Sequence(""), false);
    StartsSequence(e);
    assert "" + rest == rest && Sequence(rest) == ['\U{1b}', '['] + rest;
    assert ['\U{1b}', '['] + rest == ['\U{1b}'] + (['['] + rest);
    hide WellFormed, Consume, Perform, EscapeAction, WriteAll, Sequence, Units;
    WriteSilent(e, '\U{1b}', e.(escapeSequence := ['\U{1b}']), ['['] + rest);
    WriteSilent(e.(escapeSequence := ['\U{1b}']), '[', e.(escapeSequence := Sequence("")), rest);
    SequenceCollects(e, "", parameters, f);
  }

  /** What a sequence, named by what follows ESC [, does. */
  ghost predicate Sequenced(e: Editor, rest: string, r: Editor)
    requires e.cursor <= |e.line| && e.historyIndex <= |e.history| && r.cursor <= |r.line|
  {
    var i := e.historyIndex;
    if rest == "A" then if i == 0 then r == e else r.historyIndex == i - 1 && Around(r, e.history[i - 1], "")
    else if rest == "B" then
      if i == |e.history| then r == e else r.historyIndex == i + 1 && Around(r, EntryAt(e.history, i + 1), "")
    else
      r.historyIndex == i &&
      if rest == "C" then r.line == e.line && r.cursor == Min(e.cursor + 1, |e.line|)
      else if rest == "D" then r.line == e.line && r.cursor == if e.cursor == 0 then 0 else e.cursor - 1
      else if rest == "H" || rest == "1~" then Around(r, "", e.line)
      else if rest == "F" || rest == "4~" then Around(r, e.line, "")
      else if rest == "3~" then Around(r, Before(e), DropFirst(After(e)))
      else r == e
  }

  lemma SequencesDiffer(rest: string, other: string)
    ensures Sequence(rest) == Sequence(other) <==> rest == other
  {
    assert Sequence(rest)[2..] == rest && Sequence(other)[2..] == other;
  }

  /** What each sequence asks for. */
  ghost function Asked(e: Editor, rest: string): Action {
    if rest == "A" then Recall(-1)
    else if rest == "B" then Recall(1)
    else if rest == "C" then MoveTo(Min(e.cursor + 1, |e.line|))
    else if rest == "D" then MoveTo(if e.cursor > 0 then e.cursor - 1 else 0)
    else if rest == "H" || rest == "1~" then MoveTo(0)
    else if rest == "F" || rest == "4~" then MoveTo(|e.line|)
    else if rest == "3~" then Delete
    else Nothing
  }

  lemma SequenceAsks(e: Editor, rest: string)
    ensures EscapeAction(e, Sequence(rest)) == Asked(e, rest)
  {
    SequencesDiffer(rest, "A");
    SequencesDiffer(rest, "B");
    SequencesDiffer(rest, "C");
    SequencesDiffer(rest, "D");
    SequencesDiffer(rest, "H");
    SequencesDiffer(rest, "1~");
    SequencesDiffer(rest, "F");
    SequencesDiffer(rest, "4~");
    SequencesDiffer(rest, "3~");
    hide Sequence;
  }

  lemma RecallSteps(e: Editor)
    requires WellFormed(e)
    ensures Sequenced(e, "A", RecallHistory(e, -1).0) && Sequenced(e, "B", RecallHistory(e, 1).0)
  {
    hide Redraw;
  }

  lemma MoveSteps(e: Editor, rest: string)
    requires WellFormed(e) && Asked(e, rest).MoveTo?
    ensures Sequenced(e, rest, MoveCursor(e, Asked(e, rest).position).0)
  {
    hide Redraw, WellFormed;
    FlagsKeep(e, "", false);
  }

  lemma DeleteSteps(e: Editor)
    requires WellFormed(e)
    ensures DeleteAtCursor(e).0.cursor <= |DeleteAtCursor(e).0.line| && Sequenced(e, "3~", DeleteAtCursor(e).0)
  {
    ErasingIsRight(e);
    EditingKeepsPlace(e, Delete);
    hide Redraw;
  }

  lemma AskedIsDone(e: Editor, rest: string)
    requires WellFormed(e)
    ensures e.cursor <= |e.line| && e.historyIndex <= |e.history| && Fits(e, Asked(e, rest))
    ensures var r := Perform(e, Asked(e, rest)).0; r.cursor <= |r.line| && Sequenced(e, rest, r)
  {
    FlagsKeep(e, "", false);
    if rest == "A" || rest == "B" {
      RecallSteps(e);
    } else if Asked(e, rest).MoveTo? {
      MoveSteps(e, rest);
    } else if rest == "3~" {
      DeleteSteps(e);
    }
    hide WellFormed, RecallHistory, MoveCursor, DeleteAtCursor, Around;
  }

  /**
   * Every escape sequence does what it should, and those that mean nothing here change
   * nothing; the modes are as before it.
   */
  lemma SequencesEdit(e: Editor, parameters: string, f: char)
    requires WellFormed(e) && e.escapeSequence == "" && NonFinal(parameters) && |parameters| <= 14
    requires 0x40 <= f as int <= 0x7e
    ensures var rest := parameters + [f];
            var r := WriteAll(e, ['\U{1b}', '['] + rest).0;
            e.cursor <= |e.line| && e.historyIndex <= |e.history| && r.cursor <= |r.line| &&
            Sequenced(e, rest, r) && r.history == e.history &&
            r.escapeSequence == "" && r.ignoreNextLineFeed == e.ignoreNextLineFeed
  {
    var rest := parameters + [f];
    SequenceIsOneKey(e, parameters, f);
    assert Sequence(rest) == ['\U{1b}', '['] + rest;
    SequenceAsks(e, rest);
    AskedIsDone(e, rest);
    PerformKeepsModes(e, Asked(e, rest));
    AskedNeverSubmits(e, rest);
    hide WellFormed, Perform, Sequenced, Asked, Sequence, WriteAll, EscapeAction, NonFinal;
  }

  lemma AskedNeverSubmits(e: Editor, rest: string)
    ensures !Asked(e, rest).SubmitLine?
  {}

  /** ESC before anything but a bracket is dropped together with that character. */
  lemma LoneEscapeIsDropped(e: Editor, c: char)
    requires WellFormed(e) && e.escapeSequence == "" && c != '[' && c as int <= 0xffff
    ensures WriteAll(e, ['\U{1b}'] + [c]) == (e, "")
  {
    var started := e.(escapeSequence := ['\U{1b}']);
    FlagsKeep(e, ['\U{1b}'], false);
    StartsSequence(e);
    UnitsOfNarrow(['\U{1b}'] + [c]);
    WriteSilent(e, '\U{1b}', started, [c]);
    WriteLast(started, c);
    assert Consume(started, c) == (e, "");
    hide *;
  }

  lemma {:induction false} OverlongCollects(e: Editor, done: string, rest: string)
    requires WellFormed(e) && e.escapeSequence == "" && NonFinal(done) && NonFinal(rest) && rest != ""
    requires |done| + |rest| == 15
    ensures WellFormed(e.(escapeSequence := Sequence(done)))
    ensures WriteAll(e.(escapeSequence := Sequence(done)), rest) == (e, "")
    decreases |rest|
  {
    FlagsKeep(e, Sequence(done), false);
    var started := e.(escapeSequence := Sequence(done));
    hide WellFormed, Consume, WriteAll, Sequence, Units;
    CollectsOne(e, done, rest[0]);
    if |rest| == 1 {
      WriteLast(started, rest[0]);
      assert rest == [rest[0]];
    } else {
      var next := done + [rest[0]];
      FlagsKeep(e, Sequence(next), false);
      assert rest == [rest[0]] + rest[1..];
      WriteSilent(started, rest[0], e.(escapeSequence := Sequence(next)), rest[1..]);
      OverlongCollects(e, next, rest[1..]);
    }
  }

  /** A sequence of more than sixteen characters that has not ended is dropped. */
  lemma OverlongIsDropped(e: Editor, parameters: string)
    requires WellFormed(e) && e.escapeSequence == "" && NonFinal(parameters) && |parameters| == 15
    ensures WriteAll(e, ['\U{1b}', '['] + parameters) == (e, "")
  {
    FlagsKeep(e, "", false);
    FlagsKeep(e, ['\U{1b}'], false);
    FlagsKeep(e, Sequence(""), false);
    StartsSequence(e);
    assert ['\U{1b}', '['] + parameters == ['\U{1b}'] + (['['] + parameters);
    hide WellFormed, Consume, WriteAll, Sequence, Units;
    WriteSilent(e, '\U{1b}', e.(escapeSequence := ['\U{1b}']), ['['] + parameters);
    WriteSilent(e.(escapeSequence := ['\U{1b}']), '[', e.(escapeSequence := Sequence("")), parameters);
    OverlongCollects(e, "", parameters);
  }
}
