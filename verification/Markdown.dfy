/** Table cells of the Markdown report (internal/report/markdown.go), read back as GitHub
    Flavored Markdown tables are (section 4.10): a backslash takes the next character with it,
    and every other pipe ends a cell. */
module Markdown {

  // ----- writing -----

  function ReplaceAll(s: string, from: char, to: string): string {
    if s == "" then "" else (if s[0] == from then to else [s[0]]) + ReplaceAll(s[1..], from, to)
  }

  function EscapeCell(s: string): string {
    ReplaceAll(ReplaceAll(ReplaceAll(ReplaceAll(s, '\r', " "), '\n', " "), '\\', "\\\\"), '|', "\\|")
  }

  /** One written row: "| a | b |" and a line end, from already formatted cells. */
  function Row(cells: seq<string>): string {
    "|" + Tail(cells) + "\n"
  }

  function Tail(cells: seq<string>): string {
    if cells == [] then "" else " " + EscapeCell(cells[0]) + " |" + Tail(cells[1..])
  }

  function Rows(rows: seq<seq<string>>): string {
    if rows == [] then "" else Row(rows[0]) + Rows(rows[1..])
  }

  /** The loop of the insight table: at most limit rows. */
  method WriteRows(rows: seq<seq<string>>, limit: nat) returns (out: string)
    ensures out == Rows(if |rows| > limit then rows[..limit] else rows)
  {
    var shown := if |rows| > limit then rows[..limit] else rows;
    out := "";
    for i := 0 to |shown|
      invariant out == Rows(shown[..i])
    {
      RowsSnoc(shown[..i], shown[i]);
      assert shown[..i + 1] == shown[..i] + [shown[i]];
      out := out + Row(shown[i]);
    }
    assert shown[..|shown|] == shown;
  }

  lemma {:induction false} RowsSnoc(rows: seq<seq<string>>, row: seq<string>)
    ensures Rows(rows + [row]) == Rows(rows) + Row(row)
  {
    var all := rows + [row];
    if rows == [] {
      assert all[1..] == [] && all[0] == row;
    } else {
      RowsSnoc(rows[1..], row);
      assert all[1..] == rows[1..] + [row] && all[0] == rows[0];
      Associate(Row(rows[0]), Rows(rows[1..]), Row(row));
    }
  }

  lemma Associate(a: string, b: string, c: string)
    ensures a + (b + c) == a + b + c
  {
  }

  // ----- reading -----

  function Flatten(s: string): string {
    if s == "" then "" else (if s[0] == '\r' || s[0] == '\n' then " " else [s[0]]) + Flatten(s[1..])
  }

  function Unescape(s: string): string {
    if s == "" then ""
    else if s[0] == '\\' && |s| > 1 then [s[1]] + Unescape(s[2..])
    else [s[0]] + Unescape(s[1..])
  }

  /** The pieces between live pipes; cur is the piece being read. */
  function SplitCells(s: string, cur: string): seq<string> {
    if s == "" then [cur]
    else if s[0] == '\\' && |s| > 1 then SplitCells(s[2..], cur + s[..2])
    else if s[0] == '|' then [cur] + SplitCells(s[1..], "")
    else SplitCells(s[1..], cur + s[..1])
  }

  function SplitLines(s: string, cur: string): seq<string> {
    if s == "" then (if cur == "" then [] else [cur])
    else if s[0] == '\n' || s[0] == '\r' then [cur] + SplitLines(s[1..], "")
    else SplitLines(s[1..], cur + s[..1])
  }

  function Padded(cell: string): string {
    " " + cell + " "
  }

  /** The cells of a line, without what stands before the first and after the last pipe. */
  function ReadRow(line: string): seq<string> {
    var pieces := SplitCells(line, "");
    if |pieces| < 2 then [] else UnescapeAll(pieces[1..|pieces| - 1])
  }

  function UnescapeAll(pieces: seq<string>): seq<string> {
    if pieces == [] then [] else [Unescape(pieces[0])] + UnescapeAll(pieces[1..])
  }

  function ReadRows(lines: seq<string>): seq<seq<string>> {
    if lines == [] then [] else [ReadRow(lines[0])] + ReadRows(lines[1..])
  }

  function Expected(cells: seq<string>): seq<string> {
    if cells == [] then [] else [Padded(Flatten(cells[0]))] + Expected(cells[1..])
  }

  function ExpectedRows(rows: seq<seq<string>>): seq<seq<string>> {
    if rows == [] then [] else [Expected(rows[0])] + ExpectedRows(rows[1..])
  }

  // ----- escaping, character by character -----

  function EscapeChar(c: char): string {
    if c == '\r' || c == '\n' then " "
    else if c == '\\' then "\\\\"
    else if c == '|' then "\\|"
    else [c]
  }

  lemma HeadConcat(head: string, a: string, b: string)
    ensures head + (a + b) == (head + a) + b
  {
  }

  lemma {:induction false} ReplaceConcat(a: string, b: string, from: char, to: string)
    ensures ReplaceAll(a + b, from, to) == ReplaceAll(a, from, to) + ReplaceAll(b, from, to)
  {
    if a == "" {
      assert a + b == b;
    } else {
      ReplaceConcat(a[1..], b, from, to);
      var head := if a[0] == from then to else [a[0]];
      assert (a + b)[0] == a[0] && (a + b)[1..] == a[1..] + b;
      HeadConcat(head, ReplaceAll(a[1..], from, to), ReplaceAll(b, from, to));
    }
  }

  lemma ReplaceOne(c: char, from: char, to: string)
    ensures ReplaceAll([c], from, to) == if c == from then to else [c]
  {
    assert ReplaceAll([c], from, to) == (if c == from then to else [c]) + ReplaceAll([c][1..], from, to);
  }

  lemma EscapeHead(c: char, rest: string)
    ensures EscapeCell([c] + rest) == EscapeCell([c]) + EscapeCell(rest)
  {
    ReplaceConcat([c], rest, '\r', " ");
    var a1, b1 := ReplaceAll([c], '\r', " "), ReplaceAll(rest, '\r', " ");
    ReplaceConcat(a1, b1, '\n', " ");
    var a2, b2 := ReplaceAll(a1, '\n', " "), ReplaceAll(b1, '\n', " ");
    ReplaceConcat(a2, b2, '\\', "\\\\");
    ReplaceConcat(ReplaceAll(a2, '\\', "\\\\"), ReplaceAll(b2, '\\', "\\\\"), '|', "\\|");
  }

  lemma EscapeOne(c: char)
    ensures EscapeCell([c]) == EscapeChar(c)
  {
    ReplaceOne(c, '\r', " ");
    var c1 := if c == '\r' then ' ' else c;
    ReplaceOne(c1, '\n', " ");
    var c2 := if c1 == '\n' then ' ' else c1;
    ReplaceOne(c2, '\\', "\\\\");
    if c2 == '\\' {
      ReplaceConcat("\\", "\\", '|', "\\|");
      ReplaceOne('\\', '|', "\\|");
      assert "\\\\" == "\\" + "\\";
    } else {
      ReplaceOne(c2, '|', "\\|");
    }
  }

  /** The four replacements in a row act on each character by itself. */
  lemma EscapeStep(s: string)
    requires s != ""
    ensures EscapeCell(s) == EscapeChar(s[0]) + EscapeCell(s[1..])
  {
    EscapeHead(s[0], s[1..]);
    EscapeOne(s[0]);
    assert [s[0]] + s[1..] == s;
  }

  lemma EscapeEmpty()
    ensures EscapeCell("") == ""
  {
  }

  lemma UnescapeStep(c: char, rest: string)
    ensures Unescape(EscapeChar(c) + rest) == (if c == '\r' || c == '\n' then " " else [c]) + Unescape(rest)
  {
    var e := EscapeChar(c);
    assert (e + rest)[|e|..] == rest;
  }

  lemma UnescapeHead(escaped: string, c: char, tail: string, rest: string)
    requires escaped == EscapeChar(c) + tail
    ensures Unescape(escaped + rest) == (if c == '\r' || c == '\n' then " " else [c]) + Unescape(tail + rest)
  {
    assert escaped + rest == EscapeChar(c) + (tail + rest);
    UnescapeStep(c, tail + rest);
  }

  lemma FlattenStep(s: string, rest: string)
    requires s != ""
    ensures Flatten(s) + rest == (if s[0] == '\r' || s[0] == '\n' then " " else [s[0]]) + (Flatten(s[1..]) + rest)
  {
  }

  lemma {:induction false} UnescapeCell(s: string, rest: string)
    ensures Unescape(EscapeCell(s) + rest) == Flatten(s) + Unescape(rest)
  {
    if s == "" {
      EscapeEmpty();
      assert EscapeCell(s) + rest == rest;
    } else {
      EscapeStep(s);
      UnescapeCell(s[1..], rest);
      UnescapeHead(EscapeCell(s), s[0], EscapeCell(s[1..]), rest);
      FlattenStep(s, Unescape(rest));
    }
  }

  /** Unescaping a cell gives the value back, with line ends turned into spaces. */
  lemma EscapeRoundTrip(s: string)
    ensures Unescape(EscapeCell(s)) == Flatten(s)
  {
    UnescapeCell(s, "");
    assert EscapeCell(s) + "" == EscapeCell(s);
  }

  lemma SplitStep(c: char, rest: string, cur: string)
    ensures SplitCells(EscapeChar(c) + rest, cur) == SplitCells(rest, cur + EscapeChar(c))
  {
    var e := EscapeChar(c);
    assert (e + rest)[|e|..] == rest && (e + rest)[..|e|] == e;
  }

  lemma Glue(escaped: string, head: string, tail: string, rest: string, cur: string)
    requires escaped == head + tail
    ensures escaped + rest == head + (tail + rest) && cur + head + tail == cur + escaped
  {
  }

  /** No pipe of an escaped cell ends the cell. */
  lemma {:induction false} SplitEscaped(s: string, rest: string, cur: string)
    ensures SplitCells(EscapeCell(s) + rest, cur) == SplitCells(rest, cur + EscapeCell(s))
  {
    if s == "" {
      EscapeEmpty();
      assert EscapeCell(s) + rest == rest && cur + EscapeCell(s) == cur;
    } else {
      EscapeStep(s);
      SplitEscaped(s[1..], rest, cur + EscapeChar(s[0]));
      Glue(EscapeCell(s), EscapeChar(s[0]), EscapeCell(s[1..]), rest, cur);
      SplitStep(s[0], EscapeCell(s[1..]) + rest, cur);
    }
  }

  // ----- rows -----

  function Pieces(cells: seq<string>): seq<string> {
    if cells == [] then [] else [Padded(EscapeCell(cells[0]))] + Pieces(cells[1..])
  }

  lemma {:induction false} SplitTail(cells: seq<string>)
    ensures SplitCells(Tail(cells), "") == Pieces(cells) + [""]
  {
    if cells != [] {
      var e, rest := EscapeCell(cells[0]), Tail(cells[1..]);
      SplitTail(cells[1..]);
      var line := Tail(cells);
      assert line == " " + (e + (" |" + rest));
      assert line[1..] == e + (" |" + rest) && line[..1] == " ";
      assert SplitCells(line, "") == SplitCells(e + (" |" + rest), " ") by {
        assert "" + " " == " ";
      }
      SplitEscaped(cells[0], " |" + rest, " ");
      PipeEnds(rest, " " + e);
      assert " " + e + " " == Padded(e);
    }
  }

  lemma PipeEnds(rest: string, cur: string)
    ensures SplitCells(" |" + rest, cur) == [cur + " "] + SplitCells(rest, "")
  {
    var s := " |" + rest;
    assert s[1..] == "|" + rest && s[..1] == " ";
    assert ("|" + rest)[1..] == rest;
    assert SplitCells("|" + rest, cur + " ") == [cur + " "] + SplitCells(rest, "");
  }

  lemma {:induction false} UnescapePieces(cells: seq<string>)
    ensures UnescapeAll(Pieces(cells)) == Expected(cells)
  {
    if cells != [] {
      UnescapePieces(cells[1..]);
      var e := EscapeCell(cells[0]);
      assert Padded(e) == " " + (e + " ");
      assert (" " + (e + " "))[1..] == e + " ";
      UnescapeCell(cells[0], " ");
      assert Unescape(" ") == " ";
      assert Unescape(Padded(e)) == Padded(Flatten(cells[0]));
      assert Pieces(cells)[1..] == Pieces(cells[1..]);
    }
  }

  /** A row of any cells reads back as exactly those cells. */
  lemma RowRoundTrip(cells: seq<string>)
    ensures ReadRow("|" + Tail(cells)) == Expected(cells)
  {
    SplitTail(cells);
    UnescapePieces(cells);
    var line := "|" + Tail(cells);
    assert line[1..] == Tail(cells);
    var pieces := SplitCells(line, "");
    assert pieces == [""] + (Pieces(cells) + [""]);
    assert pieces[1..|pieces| - 1] == Pieces(cells);
  }

  // ----- lines -----

  predicate OneLine(s: string) {
    '\n' !in s && '\r' !in s
  }

  lemma {:induction false} EscapedIsOneLine(s: string)
    ensures OneLine(EscapeCell(s))
  {
    if s == "" {
      EscapeEmpty();
    } else {
      EscapeStep(s);
      EscapedIsOneLine(s[1..]);
      assert OneLine(EscapeChar(s[0]));
    }
  }

  lemma {:induction false} TailIsOneLine(cells: seq<string>)
    ensures OneLine(Tail(cells))
  {
    if cells != [] {
      EscapedIsOneLine(cells[0]);
      TailIsOneLine(cells[1..]);
    }
  }

  lemma {:induction false} LineEnds(line: string, rest: string, cur: string)
    requires OneLine(line)
    ensures SplitLines(line + "\n" + rest, cur) == [cur + line] + SplitLines(rest, "")
    decreases |line|
  {
    var s := line + "\n" + rest;
    if line == "" {
      assert s[1..] == rest && cur + line == cur;
    } else {
      assert s[0] == line[0] && s[1..] == line[1..] + "\n" + rest && s[..1] == line[..1];
      LineEnds(line[1..], rest, cur + line[..1]);
      assert cur + line[..1] + line[1..] == cur + line;
    }
  }

  /** A table body of any values reads back, row by row and cell by cell: no value opens a
      column, ends a row or starts a line of its own. */
  lemma {:induction false} TableRoundTrip(rows: seq<seq<string>>)
    ensures ReadRows(SplitLines(Rows(rows), "")) == ExpectedRows(rows)
  {
    if rows != [] {
      TableRoundTrip(rows[1..]);
      TailIsOneLine(rows[0]);
      var line := "|" + Tail(rows[0]);
      assert OneLine(line);
      assert Rows(rows) == line + "\n" + Rows(rows[1..]);
      LineEnds(line, Rows(rows[1..]), "");
      assert "" + line == line;
      RowRoundTrip(rows[0]);
      var lines := SplitLines(Rows(rows), "");
      assert lines[1..] == SplitLines(Rows(rows[1..]), "");
    }
  }
}
