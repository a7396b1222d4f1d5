/** The archive's CSV files: the row codec, and the text of a file (RFC 4180, section 2, with line feeds). */
module Csv {
  import opened Text
  import opened Calendar
  import opened Telemetry

  type Row = seq<string>

  /* ---------- rows ---------- */

  const HEADER: Row := ["organization_id", "device_identifier", "temperature", "pressure", "humidity", "ts"]

  function EncodeRow(rec: Record): Row {
    [rec.org, rec.ident, rec.temperature, rec.pressure, rec.humidity, InstantText(rec.ts)]
  }

  lemma EncodedWidth(rec: Record)
    ensures |EncodeRow(rec)| == 6
  {
  }

  function DecodeRow(cols: Row): Option<Record> {
    if |cols| != 6 then None
    else
      var org, ident, ts := ParseUuid(TrimSpace(cols[0])), TrimSpace(cols[1]), ParseInstant(TrimSpace(cols[5]));
      var t, p, h := ParseNumber(cols[2]), ParseNumber(cols[3]), ParseNumber(cols[4]);
      if org == None || ident == "" || t == None || p == None || h == None || ts == None then None
      else Some(Record(org.value, NO_DEVICE, ident, t.value, p.value, h.value, ts.value))
  }

  predicate IsHeader(cols: Row) {
    |cols| == |HEADER| && forall i :: 0 <= i < |HEADER| ==> TrimSpace(cols[i]) == HEADER[i]
  }

  lemma InstantTextEdges(t: int)
    ensures TrimSpace(InstantText(t)) == InstantText(t)
  {
    hide *;
    DateWidth(DayOf(t));
    DateStart(t);
  }

  lemma DateStart(t: int)
    ensures InstantText(t) != "" && !IsSpace(InstantText(t)[0]) && !IsSpace(InstantText(t)[|InstantText(t)| - 1])
  {
    hide FractionText, ClockText, DateOf, HourOf, MinuteOf, SecondOf;
    var d := DateText(DayOf(t));
    DateWidth(DayOf(t));
    DateHead(DayOf(t));
    assert InstantText(t)[0] == d[0];
  }

  lemma DateHead(n: int)
    ensures |DateText(n)| > 0 && !IsSpace(DateText(n)[0])
  {
    YearTextWidth(DateOf(n).year);
    assert DateText(n)[0] == YearText(DateOf(n).year)[0];
  }

  /** A record whose device text has no outer white space and no line feed, as accepted ones and those that an
      archive key names. */
  predicate Trimmed(rec: Record) {
    rec.ident != "" && !IsSpace(rec.ident[0]) && !IsSpace(rec.ident[|rec.ident| - 1]) && '\n' !in rec.ident
  }

  lemma AcceptedTrimmed(rec: Record)
    requires Accepted(rec)
    ensures Trimmed(rec)
  {
  }

  /** An encoded record decodes to itself without its device id exactly when its UTC year has four digits;
      other rows do not decode. */
  lemma RowRoundTrip(rec: Record)
    requires Trimmed(rec)
    ensures DecodeRow(EncodeRow(rec)) == if FourDigitInstant(rec.ts) then Some(rec.(deviceId := NO_DEVICE)) else None
  {
    hide ParseInstant, InstantText, FourDigitInstant, TrimSpace;
    InstantTextEdges(rec.ts);
    InstantRoundTrip(rec.ts);
    assert !IsSpace(rec.org[0]) && !IsSpace(rec.org[35]);
    assert TrimSpace(rec.org) == rec.org && TrimSpace(rec.ident) == rec.ident;
  }

  lemma UuidTrimmed(u: Uuid)
    ensures TrimSpace(u) == u && |u| == 36
  {
    assert !IsSpace(u[0]) && !IsSpace(u[35]);
  }

  /** No data row is taken for the header. */
  lemma DataIsNotHeader(rec: Record)
    ensures !IsHeader(EncodeRow(rec))
  {
    hide TrimSpace, InstantText, IsNumber, IsUuid;
    UuidTrimmed(rec.org);
    assert EncodeRow(rec)[0] == rec.org && |HEADER[0]| == 15;
  }

  /** Nor is any other row that decodes. */
  lemma DecodedIsNotHeader(cols: Row)
    requires DecodeRow(cols).Some?
    ensures !IsHeader(cols)
  {
    hide TrimSpace, ParseInstant, IsNumber, IsUuid;
    UuidTrimmed(DecodeRow(cols).value.org);
    assert |HEADER[0]| == 15;
  }

  /* ---------- writing ---------- */

  /** csv.Writer's fieldNeedsQuotes for a comma-separated file. */
  predicate NeedsQuotes(f: string) {
    f != "" && (f == "\\." || ',' in f || '"' in f || '\r' in f || '\n' in f || IsSpace(f[0]))
  }

  function Doubled(f: string): string {
    if f == "" then "" else (if f[0] == '"' then "\"\"" else [f[0]]) + Doubled(f[1..])
  }

  function Emit(f: string): string {
    if NeedsQuotes(f) then "\"" + Doubled(f) + "\"" else f
  }

  function EmitRow(row: Row): string
    requires row != []
  {
    if |row| == 1 then Emit(row[0]) + "\n" else Emit(row[0]) + "," + EmitRow(row[1..])
  }

  function EmitRows(rows: seq<Row>): string
    requires forall i :: 0 <= i < |rows| ==> rows[i] != []
  {
    if rows == [] then "" else EmitRow(rows[0]) + EmitRows(rows[1..])
  }

  predicate NonEmptyRows(rows: seq<Row>) { forall i :: 0 <= i < |rows| ==> rows[i] != [] }

  /** The text of a file: the header line and the rows. */
  function FileText(rows: seq<Row>): string
    requires NonEmptyRows(rows)
  {
    EmitRow(HEADER) + EmitRows(rows)
  }

  lemma {:induction false} EmitRowsConcat(a: seq<Row>, b: seq<Row>)
    requires NonEmptyRows(a) && NonEmptyRows(b)
    ensures EmitRows(a + b) == EmitRows(a) + EmitRows(b)
  {
    if a == [] {
      assert a + b == b;
    } else {
      assert (a + b)[1..] == a[1..] + b;
      EmitRowsConcat(a[1..], b);
    }
  }

  lemma FileTextAppend(rows: seq<Row>, row: Row)
    requires NonEmptyRows(rows) && row != []
    ensures FileText(rows + [row]) == FileText(rows) + EmitRow(row)
  {
    hide EmitRow;
    EmitRowsConcat(rows, [row]);
    assert EmitRows([row]) == EmitRow(row) + "";
  }

  lemma HeaderOnly()
    ensures FileText([]) == EmitRow(HEADER)
  {
  }

  method WriteCsv(rows: seq<Row>) returns (text: string)
    requires NonEmptyRows(rows)
    ensures text == FileText(rows)
  {
    hide EmitRow, EmitRows;
    HeaderOnly();
    text := EmitRow(HEADER);
    for i := 0 to |rows|
      invariant text == FileText(rows[..i])
    {
      assert rows[..i + 1] == rows[..i] + [rows[i]];
      FileTextAppend(rows[..i], rows[i]);
      text := text + EmitRow(rows[i]);
    }
    assert rows[..|rows|] == rows;
  }

  /* ---------- reading ---------- */

  /** One field off the front of a text: what it says, whether it ends its record, and what follows. */
  datatype Field = Bad | Field(text: string, last: bool, rest: string)

  function Put(c: char, f: Field): (r: Field)
    ensures r.Field? ==> f.Field? && r.rest == f.rest
  {
    if f.Bad? then Bad else f.(text := [c] + f.text)
  }

  /** An unquoted field; a quote inside it is an error. */
  function ReadBare(s: string): (r: Field)
    ensures r.Field? && s != "" ==> |r.rest| < |s|
    ensures r.Field? ==> |r.rest| <= |s| && (s == "" ==> r.last)
  {
    if s == "" then Field("", true, "")
    else if s[0] == ',' then Field("", false, s[1..])
    else if s[0] == '\n' then Field("", true, s[1..])
    else if s[0] == '"' then Bad
    else Put(s[0], ReadBare(s[1..]))
  }

  /** The rest of a quoted field after its opening quote. */
  function ReadQuoted(s: string): (r: Field)
    ensures r.Field? ==> |r.rest| < |s|
  {
    if s == "" then Bad
    else if s[0] != '"' then Put(s[0], ReadQuoted(s[1..]))
    else if |s| == 1 then Field("", true, "")
    else if s[1] == '"' then Put('"', ReadQuoted(s[2..]))
    else if s[1] == ',' then Field("", false, s[2..])
    else if s[1] == '\n' then Field("", true, s[2..])
    else Bad
  }

  function ReadField(s: string): (r: Field)
    ensures r.Field? && s != "" ==> |r.rest| < |s|
    ensures r.Field? && s == "" ==> r.last && r.rest == ""
  {
    if s != "" && s[0] == '"' then ReadQuoted(s[1..]) else ReadBare(s)
  }

  function ReadRow(s: string): (r: Option<(Row, string)>)
    ensures r.Some? && s != "" ==> |r.value.1| < |s|
    ensures r.Some? ==> |r.value.1| <= |s| && r.value.0 != []
    decreases |s|
  {
    match ReadField(s)
    case Bad => None
    case Field(text, last, rest) =>
      if last then Some(([text], rest))
      else
        match ReadRow(rest)
        case None => None
        case Some(more) => Some(([text] + more.0, more.1))
  }

  /** All records of width w, blank lines skipped; None where csv.Reader reports an error. */
  function ReadRows(s: string, w: Option<nat>): Option<seq<Row>>
    decreases |s|
  {
    if s == "" then Some([])
    else if s[0] == '\n' then ReadRows(s[1..], w)
    else
      match ReadRow(s)
      case None => None
      case Some(r) =>
        if w.Some? && |r.0| != w.value then None
        else
          match ReadRows(r.1, Some(|r.0|))
          case None => None
          case Some(more) => Some([r.0] + more)
  }

  /** csv.Reader turns "\r\n" into "\n" and drops a carriage return that ends the input. */
  function StripCarriage(s: string): string {
    if s == "" || s == "\r" then ""
    else if s[0] == '\r' && s[1] == '\n' then "\n" + StripCarriage(s[2..])
    else [s[0]] + StripCarriage(s[1..])
  }

  function ReadCsv(text: string): Option<seq<Row>> { ReadRows(StripCarriage(text), None) }

  /* ---------- reading back what was written ---------- */

  lemma {:induction false} BareBack(f: string, c: char, rest: string)
    requires ',' !in f && '"' !in f && '\n' !in f && (c == ',' || c == '\n')
    ensures ReadBare(f + [c] + rest) == Field(f, c == '\n', rest)
  {
    if f == "" {
      assert (f + [c] + rest)[1..] == rest;
    } else {
      assert (f + [c] + rest)[1..] == f[1..] + [c] + rest;
      BareBack(f[1..], c, rest);
    }
  }

  /** What ReadQuoted sees of a doubled field, one character on. */
  lemma DoubledNext(f: string, tail: string)
    requires f != ""
    ensures var t := Doubled(f[1..]) + tail;
            Doubled(f) + tail == (if f[0] == '"' then ['"', '"'] else [f[0]]) + t
  {
  }

  lemma ReadDoubled(t: string)
    ensures ReadQuoted(['"', '"'] + t) == Put('"', ReadQuoted(t))
  {
    assert (['"', '"'] + t)[2..] == t;
  }

  lemma ReadPlain(c: char, t: string)
    requires c != '"'
    ensures ReadQuoted([c] + t) == Put(c, ReadQuoted(t))
  {
    assert ([c] + t)[1..] == t;
  }

  lemma Regroup(a: string, b: string, c: string, d: string)
    ensures a + b + c + d == a + (b + c + d)
  {
  }

  lemma {:induction false} QuotedBack(f: string, c: char, rest: string)
    requires c == ',' || c == '\n'
    ensures ReadQuoted(Doubled(f) + "\"" + [c] + rest) == Field(f, c == '\n', rest)
  {
    var tail := "\"" + [c] + rest;
    Regroup(Doubled(f), "\"", [c], rest);
    if f == "" {
      assert "" + tail == ['"', c] + rest && (['"', c] + rest)[2..] == rest;
    } else {
      hide Doubled, ReadQuoted;
      QuotedBack(f[1..], c, rest);
      Regroup(Doubled(f[1..]), "\"", [c], rest);
      DoubledNext(f, tail);
      var t := Doubled(f[1..]) + tail;
      if f[0] == '"' { ReadDoubled(t); } else { ReadPlain(f[0], t); }
      assert f == [f[0]] + f[1..];
    }
  }

  lemma QuotedTail(d: string, c: char, rest: string)
    ensures var s := "\"" + d + "\"" + [c] + rest; s[0] == '"' && s[1..] == d + "\"" + [c] + rest
  {
  }

  lemma EmitBack(f: string, c: char, rest: string)
    requires c == ',' || c == '\n'
    ensures ReadField(Emit(f) + [c] + rest) == Field(f, c == '\n', rest)
  {
    hide Doubled, ReadBare, ReadQuoted, IsSpace;
    if NeedsQuotes(f) {
      QuotedBack(f, c, rest);
      QuotedTail(Doubled(f), c, rest);
    } else {
      BareBack(f, c, rest);
      assert f != "" ==> (f + [c] + rest)[0] == f[0];
    }
  }

  lemma {:induction false} RowBack(row: Row, rest: string)
    requires row != []
    ensures ReadRow(EmitRow(row) + rest) == Some((row, rest))
  {
    hide Emit, ReadField;
    if |row| == 1 {
      EmitBack(row[0], '\n', rest);
      assert EmitRow(row) + rest == Emit(row[0]) + ['\n'] + rest;
      assert row == [row[0]];
    } else {
      var more := EmitRow(row[1..]) + rest;
      EmitBack(row[0], ',', more);
      assert EmitRow(row) + rest == Emit(row[0]) + [','] + more;
      RowBack(row[1..], rest);
      assert row == [row[0]] + row[1..];
    }
  }

  /** A written row of several fields never looks like a blank line. */
  lemma RowStarts(row: Row)
    requires |row| >= 2
    ensures EmitRow(row) != "" && EmitRow(row)[0] != '\n'
  {
  }

  predicate Uniform(rows: seq<Row>, w: nat) { forall i :: 0 <= i < |rows| ==> |rows[i]| == w }

  lemma {:induction false} RowsBack(rows: seq<Row>, w: nat, first: Option<nat>)
    requires w >= 2 && Uniform(rows, w) && (first == None || first == Some(w))
    ensures ReadRows(EmitRows(rows), first) == Some(rows)
  {
    hide EmitRow, ReadRow;
    if rows != [] {
      var s := EmitRows(rows);
      RowBack(rows[0], EmitRows(rows[1..]));
      RowStarts(rows[0]);
      assert s[0] == EmitRow(rows[0])[0];
      RowsBack(rows[1..], w, Some(w));
      assert rows == [rows[0]] + rows[1..];
    }
  }

  /** A field as csv.Reader gives it back: a line feed where a carriage return and a line feed stood. */
  function Unified(f: string): (r: string)
    ensures |r| <= |f| && (r == f || |r| < |f|)
  {
    if f == "" then ""
    else if f[0] == '\r' && |f| > 1 && f[1] == '\n' then "\n" + Unified(f[2..])
    else [f[0]] + Unified(f[1..])
  }

  predicate PairFree(f: string) { forall i :: 0 <= i < |f| - 1 && f[i] == '\r' ==> f[i + 1] != '\n' }

  lemma {:induction false} UnifiedSame(f: string)
    ensures Unified(f) == f <==> PairFree(f)
  {
    if f != "" {
      if f[0] == '\r' && |f| > 1 && f[1] == '\n' {
        assert !PairFree(f);
      } else {
        UnifiedSame(f[1..]);
        assert Unified(f) == f <==> Unified(f[1..]) == f[1..];
        assert PairFree(f) <==> PairFree(f[1..]) by {
          if PairFree(f[1..]) {
            forall i | 0 <= i < |f| - 1 && f[i] == '\r' ensures f[i + 1] != '\n' {
              if i > 0 { assert f[1..][i - 1] == f[i] && f[1..][i] == f[i + 1]; }
            }
          }
        }
      }
    }
  }

  lemma StripNext(s: string)
    requires s != "" && (s[0] == '\r' ==> |s| > 1 && s[1] != '\n')
    ensures StripCarriage(s) == [s[0]] + StripCarriage(s[1..])
  {
  }

  lemma StripPair(s: string)
    requires |s| > 1 && s[0] == '\r' && s[1] == '\n'
    ensures StripCarriage(s) == "\n" + StripCarriage(s[2..])
  {
  }

  lemma Associates(a: string, b: string, c: string)
    ensures a + b + c == a + (b + c)
  {
  }

  lemma {:induction false} StripConcat(a: string, b: string)
    requires a != "" ==> a[|a| - 1] != '\r'
    ensures StripCarriage(a + b) == StripCarriage(a) + StripCarriage(b)
  {
    if a == "" {
      assert a + b == b;
    } else if a[0] == '\r' && a[1] == '\n' {
      hide StripCarriage;
      StripConcat(a[2..], b);
      StripPair(a);
      StripPair(a + b);
      assert (a + b)[2..] == a[2..] + b;
      Associates("\n", StripCarriage(a[2..]), StripCarriage(b));
    } else {
      hide StripCarriage;
      StripConcat(a[1..], b);
      StripNext(a);
      StripNext(a + b);
      assert (a + b)[1..] == a[1..] + b;
      Associates([a[0]], StripCarriage(a[1..]), StripCarriage(b));
    }
  }

  lemma {:induction false} StripNothing(s: string)
    requires '\r' !in s
    ensures StripCarriage(s) == s && Unified(s) == s
  {
    if s != "" { StripNothing(s[1..]); }
  }

  /** The text a character of a quoted field is written as. */
  function Quoted(c: char): string { if c == '"' then "\"\"" else [c] }

  lemma DoubledHead(f: string)
    requires f != ""
    ensures Doubled(f) == Quoted(f[0]) + Doubled(f[1..])
  {
  }

  lemma DoubledCons(c: char, f: string)
    ensures Doubled([c] + f) == Quoted(c) + Doubled(f)
  {
    assert ([c] + f)[1..] == f;
  }

  lemma {:induction false} StripDoubled(f: string)
    ensures StripCarriage(Doubled(f) + "\"") == Doubled(Unified(f)) + "\""
  {
    if f == "" {
      StripNothing("\"");
      assert Doubled(f) + "\"" == "\"";
    } else {
      hide StripCarriage, Doubled, Quoted;
      var c := f[0];
      DoubledHead(f);
      if c == '\r' && |f| > 1 && f[1] == '\n' {
        StripDoubled(f[2..]);
        StripBroken(f);
        DoubledCons('\n', Unified(f[2..]));
        Associates(Quoted('\n'), Doubled(Unified(f[2..])), "\"");
      } else {
        StripDoubled(f[1..]);
        StripQuoted(f);
        DoubledCons(c, Unified(f[1..]));
        Associates(Quoted(c), Doubled(Unified(f[1..])), "\"");
      }
    }
  }

  lemma StripBroken(f: string)
    requires |f| > 1 && f[0] == '\r' && f[1] == '\n'
    ensures StripCarriage(Doubled(f) + "\"") == Quoted('\n') + StripCarriage(Doubled(f[2..]) + "\"")
  {
    hide StripCarriage, Doubled;
    DoubledNext(f, "\"");
    DoubledNext(f[1..], "\"");
    assert f[1..][1..] == f[2..];
    PairCons(Doubled(f[2..]) + "\"");
  }

  lemma PairCons(t: string)
    ensures StripCarriage(['\r'] + (['\n'] + t)) == "\n" + StripCarriage(t)
  {
    hide StripCarriage;
    var s := ['\r'] + (['\n'] + t);
    StripPair(s);
    assert s[2..] == t;
  }

  lemma HeadCons(c: char, t: string)
    requires c == '\r' ==> t != "" && t[0] != '\n'
    ensures StripCarriage([c] + t) == [c] + StripCarriage(t)
  {
    hide StripCarriage;
    StripNext([c] + t);
    assert ([c] + t)[1..] == t;
  }

  lemma StripQuoted(f: string)
    requires f != "" && (f[0] == '\r' ==> |f| == 1 || f[1] != '\n')
    ensures StripCarriage(Doubled(f) + "\"") == Quoted(f[0]) + StripCarriage(Doubled(f[1..]) + "\"")
  {
    hide StripCarriage, Doubled;
    var c, t := f[0], Doubled(f[1..]) + "\"";
    DoubledNext(f, "\"");
    if c == '\r' {
      QuotedStart(f[1..]);
      HeadCons(c, t);
    } else {
      StripConcat(Quoted(c), t);
      StripNothing(Quoted(c));
    }
  }

  lemma QuotedStart(f: string)
    ensures (Doubled(f) + "\"")[0] == if f == "" then '"' else f[0]
  {
  }

  lemma {:induction false} UnifiedBreaks(f: string)
    requires '\r' in f
    ensures '\r' in Unified(f) || '\n' in Unified(f)
  {
    if f[0] != '\r' { UnifiedBreaks(f[1..]); }
  }

  lemma StripEmit(f: string)
    ensures StripCarriage(Emit(f)) == Emit(Unified(f))
  {
    hide Doubled, StripCarriage, Unified, IsSpace;
    if '\r' in f {
      UnifiedBreaks(f);
      StripDoubled(f);
      Associates("\"", Doubled(f), "\"");
      StripConcat("\"", Doubled(f) + "\"");
      StripNothing("\"");
      Associates("\"", Doubled(Unified(f)), "\"");
    } else {
      StripNothing(f);
      EmitCarriage(f);
      StripNothing(Emit(f));
    }
  }

  lemma {:induction false} DoubledCarriage(f: string)
    requires '\r' !in f
    ensures '\r' !in Doubled(f)
  {
    if f != "" { DoubledCarriage(f[1..]); }
  }

  lemma EmitCarriage(f: string)
    requires '\r' !in f
    ensures '\r' !in Emit(f)
  {
    hide Doubled, NeedsQuotes;
    DoubledCarriage(f);
  }

  /** A written field never ends in a carriage return. */
  lemma EmitEnd(f: string)
    ensures Emit(f) != "" ==> Emit(f)[|Emit(f)| - 1] != '\r'
  {
    hide Doubled, IsSpace;
  }

  function UnifiedRow(row: Row): (r: Row)
    ensures |r| == |row| && forall j :: 0 <= j < |row| ==> r[j] == Unified(row[j])
  {
    if row == [] then [] else [Unified(row[0])] + UnifiedRow(row[1..])
  }

  function UnifiedRows(rows: seq<Row>): (r: seq<Row>)
    ensures |r| == |rows| && forall i :: 0 <= i < |rows| ==> r[i] == UnifiedRow(rows[i])
  {
    if rows == [] then [] else [UnifiedRow(rows[0])] + UnifiedRows(rows[1..])
  }

  lemma {:induction false} StripRow(row: Row, rest: string)
    requires row != []
    ensures StripCarriage(EmitRow(row) + rest) == EmitRow(UnifiedRow(row)) + StripCarriage(rest)
  {
    hide Emit, StripCarriage, Unified;
    StripEmit(row[0]);
    EmitEnd(row[0]);
    if |row| == 1 {
      StripField(Emit(row[0]), '\n', rest);
    } else {
      StripField(Emit(row[0]), ',', EmitRow(row[1..]) + rest);
      StripRow(row[1..], rest);
      assert UnifiedRow(row)[1..] == UnifiedRow(row[1..]);
      Regroup(Emit(row[0]), ",", EmitRow(row[1..]), rest);
      Associates(Emit(row[0]) + ",", EmitRow(row[1..]), rest);
      var u := UnifiedRow(row[1..]);
      assert EmitRow(UnifiedRow(row)) == Emit(Unified(row[0])) + "," + EmitRow(u);
      Associates(Emit(Unified(row[0])) + ",", EmitRow(u), StripCarriage(rest));
    }
  }

  lemma StripField(a: string, c: char, rest: string)
    requires a != "" ==> a[|a| - 1] != '\r'
    requires c == ',' || c == '\n'
    ensures StripCarriage(a + [c] + rest) == StripCarriage(a) + [c] + StripCarriage(rest)
  {
    hide StripCarriage;
    StripConcat(a, [c] + rest);
    StripConcat([c], rest);
    StripNothing([c]);
    assert a + [c] + rest == a + ([c] + rest);
  }

  lemma {:induction false} StripRows(rows: seq<Row>)
    requires NonEmptyRows(rows)
    ensures StripCarriage(EmitRows(rows)) == EmitRows(UnifiedRows(rows))
  {
    hide EmitRow;
    if rows != [] {
      StripRow(rows[0], EmitRows(rows[1..]));
      StripRows(rows[1..]);
      assert UnifiedRows(rows)[1..] == UnifiedRows(rows[1..]);
    }
  }

  predicate AllPairFree(rows: seq<Row>) {
    forall i, j :: 0 <= i < |rows| && 0 <= j < |rows[i]| ==> PairFree(rows[i][j])
  }

  lemma UnifiedRowSame(row: Row)
    ensures UnifiedRow(row) == row <==> forall j :: 0 <= j < |row| ==> PairFree(row[j])
  {
    hide PairFree, Unified;
    forall j | 0 <= j < |row| ensures UnifiedRow(row)[j] == row[j] <==> PairFree(row[j]) { UnifiedSame(row[j]); }
  }

  lemma UnifiedRowsSame(rows: seq<Row>)
    ensures UnifiedRows(rows) == rows <==> AllPairFree(rows)
  {
    hide PairFree, UnifiedRow;
    forall i | 0 <= i < |rows|
      ensures UnifiedRows(rows)[i] == rows[i] <==> forall j :: 0 <= j < |rows[i]| ==> PairFree(rows[i][j])
    {
      UnifiedRowSame(rows[i]);
    }
    if UnifiedRows(rows) != rows {
      var i :| 0 <= i < |rows| && UnifiedRows(rows)[i] != rows[i];
    }
  }

  /** Reading a written file gives the header and the rows back, whatever commas, quotes and line feeds the
      fields hold, but for a carriage return before a line feed, which is lost. */
  lemma FileRoundTrip(rows: seq<Row>)
    requires Uniform(rows, 6)
    ensures ReadCsv(FileText(rows)) == Some([HEADER] + UnifiedRows(rows))
    ensures ReadCsv(FileText(rows)) == Some([HEADER] + rows) <==> AllPairFree(rows)
  {
    hide EmitRow, EmitRows, ReadRows, StripCarriage, PairFree, UnifiedRow;
    var all, back := [HEADER] + rows, [HEADER] + UnifiedRows(rows);
    FileTextRows(rows);
    HeaderUnified();
    StripRows(all);
    assert UnifiedRows(all) == back;
    RowsBack(back, 6, None);
    UnifiedRowsSame(rows);
    assert back[1..] == UnifiedRows(rows) && all[1..] == rows;
  }

  lemma FileTextRows(rows: seq<Row>)
    requires NonEmptyRows(rows)
    ensures FileText(rows) == EmitRows([HEADER] + rows)
  {
    assert ([HEADER] + rows)[1..] == rows;
  }

  lemma HeaderUnified()
    ensures UnifiedRow(HEADER) == HEADER
  {
    hide PairFree, UnifiedRow;
    HeaderCarriage();
    forall j | 0 <= j < |HEADER| ensures PairFree(HEADER[j]) { PlainPairFree(HEADER[j]); }
    UnifiedRowSame(HEADER);
  }

  lemma HeaderCarriage()
    ensures forall j :: 0 <= j < |HEADER| ==> '\r' !in HEADER[j]
  {
  }

  lemma PlainPairFree(f: string)
    requires '\r' !in f || '\n' !in f
    ensures PairFree(f)
  {
  }

  function Rows(recs: seq<Record>): (rows: seq<Row>)
    ensures |rows| == |recs| && Uniform(rows, 6)
  {
    seq(|recs|, i requires 0 <= i < |recs| => EncodeRow(recs[i]))
  }

  predicate AllTrimmed(recs: seq<Record>) { forall i :: 0 <= i < |recs| ==> Trimmed(recs[i]) }

  lemma UuidChars(u: Uuid)
    ensures '\r' !in u
  {
  }

  lemma NumberChars(n: Number)
    ensures '\r' !in n
  {
  }

  lemma EncodedPairFree(rec: Record)
    requires Trimmed(rec)
    ensures forall j :: 0 <= j < 6 ==> PairFree(EncodeRow(rec)[j])
  {
    hide IsNumber, IsUuid, IsSpace, InstantText, PairFree;
    UuidChars(rec.org);
    NumberChars(rec.temperature);
    NumberChars(rec.pressure);
    NumberChars(rec.humidity);
    InstantChars(rec.ts);
    var row := EncodeRow(rec);
    forall j | 0 <= j < |row| ensures PairFree(row[j]) { PlainPairFree(row[j]); }
  }

  lemma InstantChars(t: int)
    ensures '\r' !in InstantText(t)
  {
    hide DateText, ClockText, FractionText;
    DateChars(DayOf(t));
    ClockChars(HourOf(t) % 24, MinuteOf(t) % 60, SecondOf(t) % 60);
    FractionChars(t % 1_000_000_000);
  }

  lemma DateChars(n: int)
    ensures '\r' !in DateText(n)
  {
  }

  lemma ClockChars(h: nat, m: nat, s: nat)
    ensures '\r' !in ClockText(h, m, s)
  {
  }

  lemma FractionChars(nanos: int)
    requires 0 <= nanos < 1_000_000_000
    ensures '\r' !in FractionText(nanos)
  {
  }

  /** A file of encoded records reads back as the header and the same rows. */
  lemma RecordsRoundTrip(recs: seq<Record>)
    requires AllTrimmed(recs)
    ensures ReadCsv(FileText(Rows(recs))) == Some([HEADER] + Rows(recs))
  {
    hide PairFree, Trimmed, EncodeRow;
    forall i, j | 0 <= i < |recs| && 0 <= j < 6 ensures PairFree(Rows(recs)[i][j]) { EncodedPairFree(recs[i]); }
    FileRoundTrip(Rows(recs));
  }
}
