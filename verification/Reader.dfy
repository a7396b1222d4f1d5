/** What the CSV reader makes of texts that the writer does not write: blank lines, carriage returns at line ends, a
    last line that is not ended, and lines of another width. */
module Reader {
  import opened Text
  import opened Csv

  /** A line as it may stand in a file: after some blank lines, and ended with or without a carriage return. */
  datatype Line = Line(blanks: nat, row: Row, crlf: bool)

  /** The cells of a row with commas between. */
  function Cells(row: Row): string
    requires row != []
  {
    if |row| == 1 then Emit(row[0]) else Emit(row[0]) + "," + Cells(row[1..])
  }

  function Breaks(n: nat): string { if n == 0 then "" else "\n" + Breaks(n - 1) }

  function LineEnd(crlf: bool): string { if crlf then "\r\n" else "\n" }

  predicate Even(lines: seq<Line>, w: nat) { forall i :: 0 <= i < |lines| ==> |lines[i].row| == w }

  predicate PairFreeLines(lines: seq<Line>) {
    forall i, j :: 0 <= i < |lines| && 0 <= j < |lines[i].row| ==> PairFree(lines[i].row[j])
  }

  /** The text of these lines, and then the rest. */
  function Spread(lines: seq<Line>, w: nat, rest: string): string
    requires w > 0 && Even(lines, w)
  {
    if lines == [] then rest
    else Breaks(lines[0].blanks) + (Cells(lines[0].row) + (LineEnd(lines[0].crlf) + Spread(lines[1..], w, rest)))
  }

  function RowsIn(lines: seq<Line>): seq<Row> { if lines == [] then [] else [lines[0].row] + RowsIn(lines[1..]) }

  lemma {:induction false} CellsRow(row: Row)
    requires row != []
    ensures EmitRow(row) == Cells(row) + "\n"
  {
    hide Emit;
    if |row| > 1 { CellsRow(row[1..]); }
  }

  lemma {:induction false} StripCells(row: Row, tail: string)
    requires row != [] && forall j :: 0 <= j < |row| ==> PairFree(row[j])
    ensures StripCarriage(Cells(row) + tail) == Cells(row) + StripCarriage(tail)
  {
    hide Emit, StripCarriage, PairFree;
    StripEmit(row[0]);
    UnifiedSame(row[0]);
    EmitEnd(row[0]);
    if |row| == 1 {
      StripConcat(Emit(row[0]), tail);
    } else {
      StripCells(row[1..], tail);
      StripField(Emit(row[0]), ',', Cells(row[1..]) + tail);
      Associates(Emit(row[0]) + ",", Cells(row[1..]), tail);
      Associates(Emit(row[0]) + ",", Cells(row[1..]), StripCarriage(tail));
    }
  }

  lemma {:induction false} StripBreaks(n: nat, tail: string)
    ensures StripCarriage(Breaks(n) + tail) == Breaks(n) + StripCarriage(tail)
  {
    hide StripCarriage;
    if n == 0 {
      assert "" + tail == tail && "" + StripCarriage(tail) == StripCarriage(tail);
    } else {
      StripBreaks(n - 1, tail);
      HeadCons('\n', Breaks(n - 1) + tail);
      Associates("\n", Breaks(n - 1), tail);
      Associates("\n", Breaks(n - 1), StripCarriage(tail));
    }
  }

  lemma StripEnd(crlf: bool, tail: string)
    ensures StripCarriage(LineEnd(crlf) + tail) == "\n" + StripCarriage(tail)
  {
    hide StripCarriage;
    if crlf {
      PairCons(tail);
      assert LineEnd(crlf) + tail == ['\r'] + (['\n'] + tail);
    } else {
      HeadCons('\n', tail);
    }
  }

  lemma {:induction false} BlankSkipped(n: nat, s: string, first: Option<nat>)
    ensures ReadRows(Breaks(n) + s, first) == ReadRows(s, first)
  {
    if n == 0 {
      assert "" + s == s;
    } else {
      BlankSkipped(n - 1, s, first);
      assert (Breaks(n) + s)[1..] == Breaks(n - 1) + s;
    }
  }

  /** One line more in front. */
  lemma LineRead(line: Line, w: nat, tail: string, first: Option<nat>)
    requires w >= 2 && |line.row| == w && (first == None || first == Some(w))
    requires forall j :: 0 <= j < w ==> PairFree(line.row[j])
    ensures ReadRows(StripCarriage(Breaks(line.blanks) + (Cells(line.row) + (LineEnd(line.crlf) + tail))), first)
            == match ReadRows(StripCarriage(tail), Some(w)) case None => None case Some(more) => Some([line.row] + more)
  {
    hide StripCarriage, Cells, Breaks, LineEnd, ReadRow, ReadRows, PairFree, EmitRow;
    StripBreaks(line.blanks, Cells(line.row) + (LineEnd(line.crlf) + tail));
    StripCells(line.row, LineEnd(line.crlf) + tail);
    StripEnd(line.crlf, tail);
    CellsRow(line.row);
    var rest := StripCarriage(tail);
    Associates(Cells(line.row), "\n", rest);
    BlankSkipped(line.blanks, EmitRow(line.row) + rest, first);
    FirstRead(line.row, rest, first);
  }

  lemma FirstRead(row: Row, rest: string, first: Option<nat>)
    requires |row| >= 2 && (first == None || first == Some(|row|))
    ensures ReadRows(EmitRow(row) + rest, first)
            == match ReadRows(rest, Some(|row|)) case None => None case Some(more) => Some([row] + more)
  {
    hide EmitRow, ReadRow;
    RowBack(row, rest);
    RowStarts(row);
    assert (EmitRow(row) + rest)[0] == EmitRow(row)[0];
  }

  /** Blank lines, carriage returns at line ends and a missing last line feed make no difference: the rows are read
      all the same. */
  lemma {:induction false} ReadsLines(lines: seq<Line>, w: nat, last: Option<Row>, first: Option<nat>)
    requires w >= 2 && Even(lines, w) && PairFreeLines(lines) && (first == None || first == Some(w))
    requires last.Some? ==> |last.value| == w && forall j :: 0 <= j < w ==> PairFree(last.value[j])
    ensures ReadRows(StripCarriage(Spread(lines, w, if last == None then "" else Cells(last.value))), first)
            == Some(RowsIn(lines) + if last == None then [] else [last.value])
  {
    hide StripCarriage, Cells, Breaks, LineEnd, ReadRows, PairFree;
    if lines != [] {
      var rest := Spread(lines[1..], w, if last == None then "" else Cells(last.value));
      ReadsLines(lines[1..], w, last, Some(w));
      LineRead(lines[0], w, rest, first);
      var end: seq<Row> := if last == None then [] else [last.value];
      assert [lines[0].row] + RowsIn(lines[1..]) + end == [lines[0].row] + (RowsIn(lines[1..]) + end);
    } else if last.Some? {
      LastRead(last.value, first);
      assert RowsIn(lines) + [last.value] == [last.value];
    } else {
      NothingLeft(first);
      var none: seq<Row> := [];
      assert RowsIn(lines) + none == none;
    }
  }

  lemma NothingLeft(first: Option<nat>)
    ensures ReadRows(StripCarriage(""), first) == Some([])
  {
  }

  lemma {:induction false} EndBack(f: string)
    ensures ReadField(Emit(f)) == Field(f, true, "")
  {
    hide Doubled, ReadBare, ReadQuoted, IsSpace;
    if NeedsQuotes(f) {
      QuotedEnd(f);
      assert Emit(f)[1..] == Doubled(f) + "\"";
    } else {
      BareEnd(f);
    }
  }

  lemma {:induction false} BareEnd(f: string)
    requires ',' !in f && '"' !in f && '\n' !in f
    ensures ReadBare(f) == Field(f, true, "")
  {
    if f != "" { BareEnd(f[1..]); }
  }

  lemma {:induction false} QuotedEnd(f: string)
    ensures ReadQuoted(Doubled(f) + "\"") == Field(f, true, "")
  {
    if f != "" {
      hide Doubled, ReadQuoted;
      QuotedEnd(f[1..]);
      DoubledNext(f, "\"");
      var t := Doubled(f[1..]) + "\"";
      if f[0] == '"' { ReadDoubled(t); } else { ReadPlain(f[0], t); }
      assert f == [f[0]] + f[1..];
    }
  }

  lemma {:induction false} RowEnd(row: Row)
    requires row != []
    ensures ReadRow(Cells(row)) == Some((row, ""))
  {
    hide Emit, ReadField;
    if |row| == 1 {
      EndBack(row[0]);
      assert row == [row[0]];
    } else {
      EmitBack(row[0], ',', Cells(row[1..]));
      assert Cells(row) == Emit(row[0]) + [','] + Cells(row[1..]);
      RowEnd(row[1..]);
      assert row == [row[0]] + row[1..];
    }
  }

  lemma CellsStart(row: Row)
    requires |row| >= 2
    ensures Cells(row) != "" && Cells(row)[0] != '\n'
  {
  }

  lemma LastRead(row: Row, first: Option<nat>)
    requires |row| >= 2 && (first == None || first == Some(|row|)) && forall j :: 0 <= j < |row| ==> PairFree(row[j])
    ensures ReadRows(StripCarriage(Cells(row)), first) == Some([row])
  {
    hide StripCarriage, Cells, ReadRow, PairFree;
    StripCells(row, "");
    StripNothing("");
    assert Cells(row) + "" == Cells(row);
    RowEnd(row);
    CellsStart(row);
    assert StripCarriage(Cells(row)) == Cells(row);
    var none: seq<Row> := [];
    assert ReadRows("", Some(|row|)) == Some(none) && [row] + none == [row];
  }

  /** Rows that are read all have as many cells as the first. */
  lemma {:induction false} ReadsEven(s: string, first: Option<nat>)
    requires ReadRows(s, first).Some?
    ensures var rows := ReadRows(s, first).value;
            forall i :: 0 <= i < |rows| ==> |rows[i]| == if first.Some? then first.value else |rows[0]|
    decreases |s|
  {
    hide ReadRow;
    if s == "" {
    } else if s[0] == '\n' {
      ReadsEven(s[1..], first);
    } else {
      var r := ReadRow(s).value;
      ReadsEven(r.1, Some(|r.0|));
    }
  }

  /** A row of another width makes the whole text unreadable, wherever it comes. */
  lemma {:induction false} UnevenFails(lines: seq<Line>, w: nat, odd: Row, tail: string, first: Option<nat>)
    requires w >= 2 && Even(lines, w) && PairFreeLines(lines) && (first == None || first == Some(w))
    requires (lines != [] || first == Some(w)) && |odd| >= 2 && |odd| != w && forall j :: 0 <= j < |odd| ==>
        PairFree(odd[j])
    ensures ReadRows(StripCarriage(Spread(lines, w, Cells(odd) + ("\n" + tail))), first) == None
  {
    assert LineEnd(false) == "\n";
    hide StripCarriage, Cells, Breaks, LineEnd, PairFree, EmitRow, ReadRow, ReadRows;
    if lines == [] {
      StripCells(odd, "\n" + tail);
      StripEnd(false, tail);
      CellsRow(odd);
      Associates(Cells(odd), "\n", StripCarriage(tail));
      OddRead(odd, StripCarriage(tail), w);
    } else {
      UnevenFails(lines[1..], w, odd, tail, Some(w));
      LineRead(lines[0], w, Spread(lines[1..], w, Cells(odd) + ("\n" + tail)), first);
    }
  }

  lemma OddRead(odd: Row, rest: string, w: nat)
    requires |odd| >= 2 && |odd| != w
    ensures ReadRows(EmitRow(odd) + rest, Some(w)) == None
  {
    hide EmitRow, ReadRow;
    RowBack(odd, rest);
    RowStarts(odd);
    assert (EmitRow(odd) + rest)[0] == EmitRow(odd)[0];
  }

  /* ---------- errors ---------- */

  /** A quote inside a cell that does not begin with one is an error. */
  lemma {:induction false} BareQuote(f: string, rest: string)
    requires f != "" && ',' !in f && '"' !in f && '\n' !in f
    ensures ReadField(f + "\"" + rest) == Bad
  {
    assert (f + "\"" + rest)[0] == f[0];
    BareQuoteInside(f, rest);
  }

  lemma {:induction false} BareQuoteInside(f: string, rest: string)
    requires ',' !in f && '"' !in f && '\n' !in f
    ensures ReadBare(f + "\"" + rest) == Bad
  {
    if f != "" {
      assert (f + "\"" + rest)[1..] == f[1..] + "\"" + rest;
      BareQuoteInside(f[1..], rest);
    }
  }

  /** So is a quoted cell that is not closed, or goes on behind its closing quote. */
  lemma QuotedErrors(f: string, c: char, rest: string)
    requires c != ',' && c != '\n' && c != '"'
    ensures ReadField("\"" + Doubled(f)) == Bad
    ensures ReadField("\"" + (Doubled(f) + ("\"" + [c] + rest))) == Bad
  {
    hide Doubled, ReadQuoted;
    assert ("\"" + Doubled(f))[1..] == Doubled(f);
    var t := "\"" + [c] + rest;
    assert ("\"" + (Doubled(f) + t))[1..] == Doubled(f) + t;
    NeverClosed(f);
    GoesOn(f, c, rest);
  }

  lemma {:induction false} NeverClosed(f: string)
    ensures ReadQuoted(Doubled(f)) == Bad
  {
    if f != "" {
      hide Doubled, ReadQuoted;
      NeverClosed(f[1..]);
      DoubledHead(f);
      var t := Doubled(f[1..]);
      if f[0] == '"' {
        ReadDoubled(t);
        assert Doubled(f) == ['"', '"'] + t;
      } else {
        ReadPlain(f[0], t);
      }
    }
  }

  lemma {:induction false} GoesOn(f: string, c: char, rest: string)
    requires c != ',' && c != '\n' && c != '"'
    ensures ReadQuoted(Doubled(f) + ("\"" + [c] + rest)) == Bad
  {
    var tail := "\"" + [c] + rest;
    if f == "" {
      assert Doubled(f) + tail == tail && tail[0] == '"' && tail[1] == c;
    } else {
      hide Doubled, ReadQuoted;
      GoesOn(f[1..], c, rest);
      DoubledNext(f, tail);
      var t := Doubled(f[1..]) + tail;
      if f[0] == '"' { ReadDoubled(t); } else { ReadPlain(f[0], t); }
    }
  }

  /** An error in one cell makes the whole text unreadable. */
  lemma {:induction false} ErrorFails(lines: seq<Line>, w: nat, cells: Row, bad: string, first: Option<nat>)
    requires w >= 2 && Even(lines, w) && PairFreeLines(lines) && (first == None || first == Some(w)) && |cells| >= 1
    requires (forall j :: 0 <= j < |cells| ==> PairFree(cells[j])) && ReadField(StripCarriage(bad)) == Bad
    ensures ReadRows(StripCarriage(Spread(lines, w, Cells(cells) + ("," + bad))), first) == None
  {
    hide StripCarriage, Cells, Breaks, LineEnd, PairFree, EmitRow, ReadRow, ReadRows, ReadField;
    if lines == [] {
      StripCells(cells, "," + bad);
      HeadCons(',', bad);
      CellError(cells, StripCarriage(bad), first);
    } else {
      ErrorFails(lines[1..], w, cells, bad, Some(w));
      LineRead(lines[0], w, Spread(lines[1..], w, Cells(cells) + ("," + bad)), first);
    }
  }

  lemma CellError(cells: Row, bad: string, first: Option<nat>)
    requires |cells| >= 1 && ReadField(bad) == Bad
    ensures ReadRows(Cells(cells) + ("," + bad), first) == None
  {
    hide ReadRow, ReadField;
    RowError(cells, bad);
    CommaStart(cells, bad);
  }

  lemma CommaStart(cells: Row, bad: string)
    requires |cells| >= 1
    ensures var s := Cells(cells) + ("," + bad); s != "" && s[0] != '\n'
  {
  }

  lemma {:induction false} RowError(cells: Row, bad: string)
    requires |cells| >= 1 && ReadField(bad) == Bad
    ensures ReadRow(Cells(cells) + ("," + bad)) == None
  {
    hide Emit, ReadField;
    if |cells| == 1 {
      EmitBack(cells[0], ',', bad);
      assert Cells(cells) + ("," + bad) == Emit(cells[0]) + [','] + bad;
    } else {
      RowError(cells[1..], bad);
      EmitBack(cells[0], ',', Cells(cells[1..]) + ("," + bad));
      Associates(Emit(cells[0]) + ",", Cells(cells[1..]), "," + bad);
    }
  }
}
