/**
 * What the demo shell prints when a line is submitted, command by command, and
 * what it takes the command to be.
 */
module DemoCommands {
  import opened Common
  import opened Terminals
  import opened DemoEditor
  import opened DemoLaws

  // --------------------------------------------------------------------- trimming

  ghost predicate AllSpace(s: string) {
    forall i :: 0 <= i < |s| ==> IsSpace(s[i])
  }

  ghost predicate Tight(s: string) {
    s == "" || (!IsSpace(s[0]) && !IsSpace(s[|s| - 1]))
  }

  lemma {:induction false} TrimStartIsExact(s: string) returns (front: string)
    ensures s == front + TrimStart(s) && AllSpace(front)
    ensures TrimStart(s) != "" ==> !IsSpace(TrimStart(s)[0])
  {
    hide IsSpace;
    if s != "" && IsSpace(s[0]) {
      var rest := TrimStartIsExact(s[1..]);
      front := [s[0]] + rest;
      assert s == [s[0]] + s[1..];
    } else {
      front := "";
    }
  }

  lemma {:induction false} TrimEndIsExact(s: string) returns (back: string)
    ensures s == TrimEnd(s) + back && AllSpace(back)
    ensures TrimEnd(s) != "" ==> !IsSpace(TrimEnd(s)[|TrimEnd(s)| - 1])
  {
    hide IsSpace;
    if s != "" && IsSpace(s[|s| - 1]) {
      var rest := TrimEndIsExact(s[..|s| - 1]);
      back := rest + [s[|s| - 1]];
      assert s == s[..|s| - 1] + [s[|s| - 1]];
    } else {
      back := "";
    }
  }

  /** Trimming takes off the white space at both ends, all of it and nothing else. */
  lemma TrimIsExact(s: string) returns (front: string, back: string)
    ensures s == front + Trim(s) + back && AllSpace(front) && AllSpace(back) && Tight(Trim(s))
  {
    front := TrimStartIsExact(s);
    back := TrimEndIsExact(TrimStart(s));
    hide TrimStart, TrimEnd, IsSpace;
    PartsAssemble(s, front, TrimStart(s), Trim(s), back);
  }

  lemma PartsAssemble(s: string, front: string, rest: string, core: string, back: string)
    requires s == front + rest && rest == core + back
    requires rest != "" ==> !IsSpace(rest[0])
    requires core != "" ==> !IsSpace(core[|core| - 1])
    ensures s == front + core + back && Tight(core)
  {
    hide IsSpace;
    assert front + (core + back) == front + core + back;
    if core != "" {
      assert rest[0] == core[0];
    }
  }

  // -------------------------------------------------------------------- the replies

  /** The output of submitting a line: a new line, what the command says, and a prompt. */
  ghost predicate Prints(e: Editor, c: char, said: string)
    requires e.cursor <= |e.line| && e.historyIndex <= |e.history|
  {
    Consume(e, c).1 == "\r\n" + said + PROMPT
  }

  lemma SubmitPrints(e: Editor, c: char)
    requires WellFormed(e) && Submits(e, c)
    ensures var command := Trim(e.line);
      Prints(e, c, Response(Execute(command, Remember(e.history, command), e.wording)))
  {
    hide Execute, Response, Remember, Trim, PROMPT;
  }

  /** Starting again gives an empty line outside any sequence and the welcome text, and keeps what was submitted before. */
  lemma StartIsFresh(e: Editor)
    ensures var (r, output) := Start(e);
      r.line == "" && r.cursor == 0 && r.escapeSequence == "" && !r.ignoreNextLineFeed &&
      r.history == e.history && r.historyIndex == |e.history| && r.wording == e.wording &&
      output == Coloured("1;36", e.wording.title) + "\r\n" + Coloured("1;33", e.wording.notice) + "\r\n" +
                e.wording.instructions + "\r\n" + PROMPT
  {}

  /** Ctrl-C drops the line visibly, and ctrl-L clears the screen before the line is shown again. */
  lemma ControlsPrint(e: Editor)
    requires WellFormed(e) && e.escapeSequence == ""
    ensures Consume(e, '\U{3}').1 == "^C" + "\r\n" + PROMPT
    ensures Consume(e, '\U{c}').1 == CLEAR + Redraw(e.line, e.cursor)
  {
    hide PROMPT, CLEAR, Redraw;
  }

  /** The fixed commands. */
  lemma FixedCommands(e: Editor, c: char)
    requires WellFormed(e) && Submits(e, c)
    ensures Trim(e.line) == "" ==> Prints(e, c, "")
    ensures Trim(e.line) == "echo" ==> Prints(e, c, "")
    ensures Trim(e.line) == "pwd" ==> Prints(e, c, "/demo" + "\r\n")
    ensures Trim(e.line) == "whoami" ==> Prints(e, c, "visitor" + "\r\n")
    ensures Trim(e.line) == "clear" ==> Prints(e, c, CLEAR)
    ensures Trim(e.line) == "help" && e.wording.help != "" ==> Prints(e, c, e.wording.help + "\r\n")
    ensures Trim(e.line) == "about" && e.wording.about != "" ==> Prints(e, c, e.wording.about + "\r\n")
    ensures Trim(e.line) == "ls" && e.wording.listing != "" ==> Prints(e, c, e.wording.listing + "\r\n")
    ensures Trim(e.line) == "cat README.md" && e.wording.readme != "" ==> Prints(e, c, e.wording.readme + "\r\n")
    ensures Trim(e.line) == "date" && e.wording.clock != "" ==> Prints(e, c, e.wording.clock + "\r\n")
  {
    SubmitPrints(e, c);
    FixedReplies(Remember(e.history, Trim(e.line)), e.wording);
    hide Execute, Remember, Trim, Consume, PROMPT, CLEAR;
  }

  lemma FixedReplies(history: seq<string>, w: Wording)
    ensures Execute("", history, w) == Silence && Execute("clear", history, w) == Reply.Clear
    ensures Execute("echo", history, w) == Text("")
    ensures Execute("pwd", history, w) == Text("/demo") && Execute("whoami", history, w) == Text("visitor")
    ensures Execute("help", history, w) == Text(w.help) && Execute("about", history, w) == Text(w.about)
    ensures Execute("ls", history, w) == Text(w.listing)
    ensures Execute("cat README.md", history, w) == Text(w.readme) && Execute("date", history, w) == Text(w.clock)
  {
    assert EchoArgument("echo") == Some("");
    hide EchoArgument, JoinLines, HistoryLines, FirstWord;
  }

  lemma {:induction false} GapIsTrimmed(gap: string, text: string)
    requires AllSpace(gap) && text != "" && !IsSpace(text[0])
    ensures TrimStart(gap + text) == text
  {
    hide IsSpace;
    if gap == "" {
      assert gap + text == text;
    } else {
      GapIsTrimmed(gap[1..], text);
      assert (gap + text)[1..] == gap[1..] + text;
    }
  }

  /** `echo` prints its arguments, without the blanks in front of them. */
  lemma EchoSays(e: Editor, c: char, gap: string, text: string)
    requires WellFormed(e) && Submits(e, c) && Trim(e.line) == "echo" + (gap + text)
    requires gap != "" && AllSpace(gap) && text != "" && !IsSpace(text[0]) && OnOneLine(text)
    ensures Prints(e, c, text + "\r\n")
  {
    SubmitPrints(e, c);
    GapIsTrimmed(gap, text);
    EchoReplies(gap, text, Remember(e.history, Trim(e.line)), e.wording);
    hide Execute, Remember, Trim, Consume, PROMPT, CLEAR;
  }

  lemma EchoReplies(gap: string, text: string, history: seq<string>, w: Wording)
    requires gap != "" && IsSpace(gap[0]) && TrimStart(gap + text) == text && text != "" && OnOneLine(text)
    ensures Execute("echo" + (gap + text), history, w) == Text(text)
  {
    var command := "echo" + (gap + text);
    assert command[0] == 'e' && |command| > 5 && command[4] == gap[0];
    assert command[|ECHO|..] == gap + text;
    hide TrimStart, IsSpace, OnOneLine, JoinLines, HistoryLines, FirstWord;
    assert EchoArgument(command) == Some(text);
    hide EchoArgument;
  }

  lemma {:induction false} WordIsFirst(word: string, rest: string)
    requires forall i :: 0 <= i < |word| ==> !IsSpace(word[i])
    requires rest == "" || IsSpace(rest[0])
    ensures FirstWord(word + rest) == word
  {
    hide IsSpace;
    if word == "" {
      assert word + rest == rest;
    } else {
      WordIsFirst(word[1..], rest);
      assert (word + rest)[1..] == word[1..] + rest;
      assert word == [word[0]] + word[1..];
    }
  }

  /** Any other command is refused by its first word. */
  lemma OthersAreRefused(e: Editor, c: char, word: string, rest: string)
    requires WellFormed(e) && Submits(e, c) && Trim(e.line) == word + rest && word != "" && word != "echo"
    requires (forall i :: 0 <= i < |word| ==> !IsSpace(word[i])) && (rest == "" || IsSpace(rest[0]))
    requires Trim(e.line) != "help" && Trim(e.line) != "about" && Trim(e.line) != "pwd" && Trim(e.line) != "whoami"
    requires Trim(e.line) != "ls" && Trim(e.line) != "cat README.md" && Trim(e.line) != "date"
    requires Trim(e.line) != "history" && Trim(e.line) != "clear"
    ensures Prints(e, c, "Command \"" + word + e.wording.refusal + "\r\n")
  {
    SubmitPrints(e, c);
    WordIsFirst(word, rest);
    NoEcho(word, rest);
    hide EchoArgument, FirstWord, Remember, Trim, Consume, PROMPT, CLEAR, JoinLines, HistoryLines, IsSpace;
  }

  lemma NoEcho(word: string, rest: string)
    requires word != "" && word != "echo"
    requires (forall i :: 0 <= i < |word| ==> !IsSpace(word[i])) && (rest == "" || IsSpace(rest[0]))
    ensures EchoArgument(word + rest) == None
  {
    var command := word + rest;
    if ECHO <= command {
      assert forall i :: 0 <= i < 4 ==> command[i] == ECHO[i] && !IsSpace(ECHO[i]);
      assert |word| < |command| ==> command[|word|] == rest[0];
      assert |word| >= 4;
      assert word == command[..|word|] && command[..4] == ECHO;
      assert command[|ECHO|..][0] == word[4];
    }
  }

  // --------------------------------------------------------------- the history command

  /** One line of the listing: a number, filled up with blanks to at least three places, and the entry. */
  ghost predicate Numbered(line: string, number: nat, entry: string) {
    exists blanks: nat, digits: string ::
      line == Blanks(blanks) + digits + "  " + entry && Number(digits) == number &&
      (forall i :: 0 <= i < |digits| ==> IsDigit(digits[i])) &&
      blanks == if |digits| < 3 then 3 - |digits| else 0
  }

  lemma LineIsNumbered(number: nat, entry: string)
    ensures Numbered(HistoryLine(number, entry), number, entry)
  {
    var digits := Decimal(number);
    var blanks := if |digits| < 3 then 3 - |digits| else 0;
    DecimalReadsBack(number);
    hide Decimal, Number;
    assert Blanks(0) + digits == digits;
    assert HistoryLine(number, entry) == Blanks(blanks) + digits + "  " + entry;
  }

  /** `text` holds the line, apart from the others by line ends. */
  ghost predicate OnItsLine(text: string, before: string, line: string, after: string, first: bool, last: bool) {
    text == before + line + after &&
    (if first then before == "" else |before| >= 2 && before[|before| - 2..] == "\r\n") &&
    (if last then after == "" else |after| >= 2 && after[..2] == "\r\n")
  }

  lemma {:induction false} LineIsListed(lines: seq<string>, k: nat) returns (before: string, after: string)
    requires k < |lines|
    ensures OnItsLine(JoinLines(lines), before, lines[k], after, k == 0, k == |lines| - 1)
  {
    var init, last := lines[..|lines| - 1], lines[|lines| - 1];
    if |lines| == 1 {
      before, after := "", "";
      assert "" + last + "" == last;
    } else if k == |lines| - 1 {
      before, after := JoinLines(init) + CRLF, "";
      assert before + last + "" == before + last;
    } else {
      var rest: string;
      before, rest := LineIsListed(init, k);
      after := rest + (CRLF + last);
      assert before + lines[k] + rest + CRLF + last == before + lines[k] + after;
    }
  }

  lemma LinesAreLong(history: seq<string>)
    requires history != []
    ensures JoinLines(HistoryLines(history)) != ""
  {
    assert HistoryLines(history)[|history| - 1] == HistoryLine(|history|, history[|history| - 1]);
    hide HistoryLines, PadStart;
  }

  lemma HistoryIsPrinted(e: Editor, c: char)
    requires WellFormed(e) && Submits(e, c) && Trim(e.line) == "history" && Consume(e, c).0.history != []
    ensures Prints(e, c, JoinLines(HistoryLines(Consume(e, c).0.history)) + "\r\n")
  {
    var history := Consume(e, c).0.history;
    SubmitPrints(e, c);
    ConsumeRemembers(e, c);
    LinesAreLong(history);
    HistoryReplies(history, e.wording);
    hide Execute, JoinLines, HistoryLines, Remember, Trim, Consume, PROMPT, CLEAR, Submits;
  }

  lemma HistoryReplies(history: seq<string>, w: Wording)
    ensures Execute("history", history, w) == Text(JoinLines(HistoryLines(history)))
  {
    hide JoinLines, HistoryLines, EchoArgument, FirstWord;
  }

  /** `history` lists every entry on a line of its own, in order, numbered from one; itself included. */
  lemma HistorySays(e: Editor, c: char, k: nat) returns (text: string, before: string, line: string, after: string)
    requires WellFormed(e) && Submits(e, c) && Trim(e.line) == "history"
    requires k < |Consume(e, c).0.history|
    ensures Prints(e, c, text + "\r\n")
    ensures var history := Consume(e, c).0.history;
      OnItsLine(text, before, line, after, k == 0, k == |history| - 1) && Numbered(line, k + 1, history[k])
  {
    FlagsKeep(e, "", false);
    HistoryIsPrinted(e, c);
    hide *;
    var history := Consume(e, c).0.history;
    text := JoinLines(HistoryLines(history));
    before, line, after := EntryIsListed(history, k);
  }

  lemma LineAt(history: seq<string>, k: nat)
    requires k < |history|
    ensures |HistoryLines(history)| == |history| && HistoryLines(history)[k] == HistoryLine(k + 1, history[k])
  {}

  lemma EntryIsListed(history: seq<string>, k: nat) returns (before: string, line: string, after: string)
    requires k < |history|
    ensures OnItsLine(JoinLines(HistoryLines(history)), before, line, after, k == 0, k == |history| - 1)
    ensures Numbered(line, k + 1, history[k])
  {
    LineAt(history, k);
    LineIsNumbered(k + 1, history[k]);
    hide *;
    line := HistoryLines(history)[k];
    before, after := LineIsListed(HistoryLines(history), k);
  }
}
