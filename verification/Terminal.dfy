/**
 * A small character-level terminal: the consumer against which the demo
 * shell's painting is judged. Control sequences have the shape of section 5.4
 * of ECMA-48; it knows CUB (8.3.18), CUP to the home position (8.3.21), ED
 * (8.3.39) and EL (8.3.41), and ignores SGR and BEL. Rows are infinitely wide.
 */
module Terminals {

  const ESC: char := '\U{1b}'
  const BEL: char := '\U{7}'
  const BS: char := '\U{8}'

  datatype Parser = Ground | Escape | Csi(parameters: string)

  /** Rows beyond `rows`, and cells beyond the end of a row, are blank. */
  datatype Terminal = Terminal(rows: seq<string>, row: nat, col: nat, parser: Parser)

  function CellAt(row: string, i: nat): char {
    if i < |row| then row[i] else ' '
  }

  function Blanks(n: nat): string {
    seq(n, i => ' ')
  }

  function PutCell(row: string, i: nat, c: char): (r: string)
    ensures forall k: nat :: CellAt(r, k) == if k == i then c else CellAt(row, k)
  {
    if i < |row| then row[i := c] else row + Blanks(i - |row|) + [c]
  }

  function RowAt(t: Terminal): string {
    if t.row < |t.rows| then t.rows[t.row] else ""
  }

  function PutRow(t: Terminal, content: string): (r: Terminal)
    ensures RowAt(r) == content && r == t.(rows := r.rows) && |r.rows| == if t.row < |t.rows| then |t.rows| else t.row + 1
  {
    if t.row < |t.rows| then t.(rows := t.rows[t.row := content])
    else t.(rows := t.rows + seq(t.row - |t.rows|, i => "") + [content])
  }

  /** A character that occupies one cell. */
  predicate Printable(c: char) {
    c as int >= 0x20 && !(0x7f <= c as int <= 0x9f)
  }

  predicate IsParameter(c: char) {
    0x20 <= c as int <= 0x3f
  }

  predicate IsFinal(c: char) {
    0x40 <= c as int <= 0x7e
  }

  predicate IsDigit(c: char) {
    '0' <= c <= '9'
  }

  function Number(digits: string): nat {
    if digits == "" then 0
    else Number(digits[..|digits| - 1]) * 10 +
         if IsDigit(digits[|digits| - 1]) then digits[|digits| - 1] as int - '0' as int else 0
  }

  function Left(col: nat, n: nat): nat {
    if n <= col then col - n else 0
  }

  function Obey(t: Terminal, parameters: string, final: char): Terminal {
    if final == 'D' then
      t.(col := Left(t.col, if Number(parameters) == 0 then 1 else Number(parameters)))
    else if final == 'H' && parameters == "" then t.(row := 0, col := 0)
    else if final == 'J' && parameters == "2" then t.(rows := [])
    else if final == 'K' && parameters == "2" then PutRow(t, "")
    else t
  }

  function Feed(t: Terminal, c: char): Terminal {
    match t.parser
    case Ground =>
      if c == ESC then t.(parser := Escape)
      else if c == '\r' then t.(col := 0)
      else if c == '\n' then t.(row := t.row + 1)
      else if c == BS then t.(col := Left(t.col, 1))
      else if Printable(c) then PutRow(t, PutCell(RowAt(t), t.col, c)).(col := t.col + 1)
      else t
    case Escape => t.(parser := if c == '[' then Csi("") else Ground)
    case Csi(parameters) =>
      if IsParameter(c) then t.(parser := Csi(parameters + [c]))
      else if IsFinal(c) then Obey(t.(parser := Ground), parameters, c)
      else t.(parser := Ground)
  }

  function FeedAll(t: Terminal, s: string): Terminal
    decreases |s|
  {
    if s == "" then t else FeedAll(Feed(t, s[0]), s[1..])
  }

  lemma {:induction false} FeedConcat(t: Terminal, a: string, b: string)
    ensures FeedAll(t, a + b) == FeedAll(FeedAll(t, a), b)
    decreases |a|
  {
    if a == "" {
      assert a + b == b;
    } else {
      assert (a + b)[1..] == a[1..] + b;
      FeedConcat(Feed(t, a[0]), a[1..], b);
    }
  }

  lemma FeedOne(t: Terminal, c: char)
    ensures FeedAll(t, [c]) == Feed(t, c)
  {}

  // ---------------------------------------------------------- control sequences

  predicate AllParameters(s: string) {
    forall i :: 0 <= i < |s| ==> IsParameter(s[i])
  }

  lemma {:induction false} FeedParameters(t: Terminal, p: string)
    requires t.parser.Csi? && AllParameters(p)
    ensures FeedAll(t, p) == t.(parser := Csi(t.parser.parameters + p))
    decreases |p|
  {
    if p == "" {
      assert t.parser.parameters + p == t.parser.parameters;
    } else {
      FeedParameters(Feed(t, p[0]), p[1..]);
      assert t.parser.parameters + [p[0]] + p[1..] == t.parser.parameters + p;
    }
  }

  function ControlSequence(parameters: string, final: char): string {
    [ESC, '['] + parameters + [final]
  }

  lemma FeedControl(t: Terminal, parameters: string, final: char)
    requires t.parser == Ground && AllParameters(parameters) && IsFinal(final)
    ensures FeedAll(t, ControlSequence(parameters, final)) == Obey(t, parameters, final)
  {
    var started := t.(parser := Csi(""));
    assert FeedAll(t, [ESC, '[']) == started by {
      assert [ESC, '['][1..] == ['['];
      FeedOne(t.(parser := Escape), '[');
    }
    FeedConcat(t, [ESC, '['] + parameters, [final]);
    FeedConcat(t, [ESC, '['], parameters);
    FeedParameters(started, parameters);
    assert "" + parameters == parameters;
    FeedOne(started.(parser := Csi(parameters)), final);
  }

  lemma FeedColour(t: Terminal, parameters: string)
    requires t.parser == Ground && AllParameters(parameters)
    ensures FeedAll(t, ControlSequence(parameters, 'm')) == t
  {
    FeedControl(t, parameters, 'm');
  }

  // --------------------------------------------------------------- plain output

  predicate AllPrintable(s: string) {
    forall i :: 0 <= i < |s| ==> Printable(s[i])
  }

  /** `after` is `before` with `text` written from its cursor on. */
  ghost predicate Written(before: Terminal, text: string, after: Terminal) {
    after.row == before.row && after.col == before.col + |text| && after.parser == before.parser &&
    (|before.rows| <= before.row + 1 ==> |after.rows| <= after.row + 1) &&
    forall k: nat :: CellAt(RowAt(after), k) ==
      if before.col <= k < before.col + |text| then text[k - before.col] else CellAt(RowAt(before), k)
  }

  lemma {:induction false} FeedText(t: Terminal, text: string)
    requires t.parser == Ground && AllPrintable(text)
    ensures Written(t, text, FeedAll(t, text))
    decreases |text|
  {
    if text != "" {
      FeedText(Feed(t, text[0]), text[1..]);
    }
  }

  predicate Tame(c: char) {
    Printable(c) || c == '\r' || c == '\n'
  }

  predicate AllTame(s: string) {
    forall i :: 0 <= i < |s| ==> Tame(s[i])
  }

  /** Nothing has ever been written below the cursor. */
  ghost predicate Clean(t: Terminal) {
    t.parser == Ground && |t.rows| <= t.row + 1
  }

  lemma {:induction false} FeedTame(t: Terminal, s: string)
    requires Clean(t) && AllTame(s)
    ensures Clean(FeedAll(t, s))
    decreases |s|
  {
    if s != "" {
      FeedTame(Feed(t, s[0]), s[1..]);
    }
  }

  /** A blank current row with the cursor at its start. */
  ghost predicate Fresh(t: Terminal) {
    Clean(t) && t.col == 0 && forall k: nat :: CellAt(RowAt(t), k) == ' '
  }

  lemma FeedNewline(t: Terminal)
    requires Clean(t)
    ensures Fresh(FeedAll(t, "\r\n"))
  {}

  // ------------------------------------------------------------ decimal numbers

  function Decimal(n: nat): string {
    if n < 10 then [('0' as int + n) as char] else Decimal(n / 10) + [('0' as int + n % 10) as char]
  }

  lemma {:induction false} DecimalReadsBack(n: nat)
    ensures Number(Decimal(n)) == n && Decimal(n) != ""
    ensures forall i :: 0 <= i < |Decimal(n)| ==> IsDigit(Decimal(n)[i])
  {
    var digit := ('0' as int + n % 10) as char;
    if n < 10 {
      assert Decimal(n) == "" + [digit];
      assert [digit][..0] == "";
    } else {
      DecimalReadsBack(n / 10);
      assert Decimal(n)[..|Decimal(n)| - 1] == Decimal(n / 10);
    }
  }
}
