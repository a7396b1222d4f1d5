/** Keys, rows and files written out: what each looks like character by character, and which texts are read as it. */
module Layout {
  import opened Text
  import opened Calendar
  import opened Telemetry
  import opened Keys
  import opened Paths
  import opened Storage
  import opened Csv
  import opened Merge
  import Exports

  const NANOS_PER_HOUR: int := 3_600_000_000_000
  const NANOS_PER_DAY: int := 86_400_000_000_000

  /* ---------- keys ---------- */

  lemma HoursAndDays(t: int)
    ensures HourOf(t) == t / NANOS_PER_HOUR && DayOf(t) == t / NANOS_PER_DAY
  {
    assert t / 1_000_000_000 / 60 == t / 60_000_000_000;
    assert t / 60_000_000_000 / 60 == t / NANOS_PER_HOUR;
    assert t / NANOS_PER_HOUR / 24 == t / NANOS_PER_DAY;
  }

  lemma JoinSnoc(front: seq<string>, x: string)
    requires front != []
    ensures Join(front + [x], '/') == Join(front, '/') + "/" + x
  {
    JoinConcat(front, [x], '/');
  }

  lemma SixParts(a: string, b: string, c: string, d: string, e: string, f: string)
    ensures Join([a, b, c, d, e, f], '/') == a + "/" + b + "/" + c + "/" + d + "/" + e + "/" + f
  {
    assert Join([a], '/') == a;
    hide Join;
    JoinSnoc([a], b);
    JoinSnoc([a, b], c);
    JoinSnoc([a, b, c], d);
    JoinSnoc([a, b, c, d], e);
    JoinSnoc([a, b, c, d, e], f);
    assert [a] + [b] == [a, b] && [a, b] + [c] == [a, b, c] && [a, b, c] + [d] == [a, b, c, d];
    assert [a, b, c, d] + [e] == [a, b, c, d, e] && [a, b, c, d, e] + [f] == [a, b, c, d, e, f];
  }

  /** The partition of a record: its organization, its device, its UTC date and its UTC hour of day. */
  lemma PartitionText(rec: Record)
    ensures PartitionKey(rec) ==
            "org" + "/" + rec.org + "/" + "device" + "/" + rec.ident + "/"
                + ("date=" + DateText(rec.ts / NANOS_PER_DAY)) + "/" +
            ("hour=" + [Digit(rec.ts / NANOS_PER_HOUR % 24 / 10), Digit(rec.ts / NANOS_PER_HOUR % 24 % 10)])
  {
    hide DateText, Numeral, Join, Digit, HourOf, DayOfHour;
    HoursAndDays(rec.ts);
    DayIs(rec.ts);
    TwoDigitText(HourOf(rec.ts) % 24);
    SixParts("org", rec.org, "device", rec.ident, "date=" + DateText(rec.ts / NANOS_PER_DAY), "hour="
        + HourText(HourOf(rec.ts)));
  }

  lemma DayIs(t: int)
    ensures DayOfHour(HourOf(t)) == DayOf(t)
  {
  }

  /** An archive file is stored under its partition's text, a slash, its id and .csv. */
  lemma ArchiveFileKey(rec: Record, id: Uuid)
    requires Exportable(rec)
    ensures FileKey(PartitionKey(rec), id) == Some(PartitionKey(rec) + "/" + id + ".csv")
  {
    hide NormalizeKey, ParseObjectKey, PartitionKey, FourDigitInstant, HasDotDot, IsIdentifier;
    FileKeyParses(rec, id);
  }

  predicate AllSlashes(s: string) { forall i :: 0 <= i < |s| ==> s[i] == '/' }

  lemma {:induction false} TrimSlashesPadded(l: string, p: string, r: string)
    requires AllSlashes(l) && AllSlashes(r) && (p != "" ==> p[0] != '/' && p[|p| - 1] != '/')
    ensures TrimSlashes(l + p + r) == p
    decreases |l| + |r|
  {
    var s := l + p + r;
    if l != "" {
      assert s[0] == '/' && s[1..] == l[1..] + p + r;
      TrimSlashesPadded(l[1..], p, r);
    } else if r != "" {
      assert s == p + r && s[|s| - 1] == '/';
      if p == "" {
        assert s == r && r[1..] == "" + "" + r[1..];
        TrimSlashesPadded("", "", r[1..]);
      } else {
        assert s[0] == p[0] && s[..|s| - 1] == "" + p + r[..|r| - 1];
        TrimSlashesPadded("", p, r[..|r| - 1]);
      }
    } else {
      assert s == p;
    }
  }

  /** An export is put under the prefix without its outer slashes, or exports when nothing else is left of it. */
  lemma ExportKeyText(l: string, p: string, r: string, org: Uuid, job: Uuid)
    requires AllSlashes(l) && AllSlashes(r) && (p != "" ==> p[0] != '/' && p[|p| - 1] != '/')
    ensures ExportObjectKey(l + p + r, org, job) == (if p == "" then "exports" else p) + "/" + org + "/" + job + ".csv"
  {
    TrimSlashesPadded(l, p, r);
    var q := if p == "" then "exports" else p;
    assert Join([job + ".csv"], '/') == job + ".csv";
    hide Join, TrimSlashes;
    JoinCons(q, [org, job + ".csv"], '/');
    JoinCons(org, [job + ".csv"], '/');
    assert [q] + [org, job + ".csv"] == [q, org, job + ".csv"] && [org] + [job + ".csv"] == [org, job + ".csv"];
  }

  /** A prefix of one plain segment is kept by the store too. */
  lemma ExportKeyStored(p: string, org: Uuid, job: Uuid)
    requires CanonicalSegment(p) && !IsSpace(p[0])
    ensures NormalizeKey(ExportObjectKey(p, org, job)) == Some(p + "/" + org + "/" + job + ".csv")
  {
    hide NormalizeKey, Join, TrimSlashes, HasDotDot, Kept, IsUuid;
    assert "" + p + "" == p;
    ExportKeyText("", p, "", org, job);
    TrimSlashesPadded("", p, "");
    PlainUuid(org);
    PlainUuid(job);
    var parts := [p, org, job + ".csv"];
    CanonicalMeans(parts);
    KeptPlain(parts);
    assert (job + ".csv")[|job + ".csv"| - 1] == 'v';
    NormalizeSegments(parts);
  }

  lemma PlainUuid(u: Uuid)
    ensures CanonicalSegment(u) && CanonicalSegment(u + ".csv")
  {
    PlainText(u);
  }

  /* ---------- keys read back ---------- */

  /** A key is read as organization, device and hour exactly when it is their partition's text followed by a file
      name; the hour has a four-digit year. */
  lemma KeyExact(key: string, org: string, ident: string, h: int)
    ensures ParseObjectKey(key) == Some(ParsedKey(org, ident, h)) <==>
            && org != "" && '/' !in org && ident != "" && '\n' !in ident && 0 <= h < 24 * 3652425
            && exists file :: file != "" && '/' !in file && key == Partition(org, ident, h) + "/" + file
  {
    hide Partition, ParseObjectKey, FourDigitYear;
    FourDigitDays(DayOfHour(h));
    if ParseObjectKey(key) == Some(ParsedKey(org, ident, h)) { ReadKey(key, org, ident, h); }
    if org != "" && '/' !in org && ident != "" && '\n' !in ident && 0 <= h < 24 * 3652425 {
      forall file | file != "" && '/' !in file && key == Partition(org, ident, h) + "/" + file
        ensures ParseObjectKey(key) == Some(ParsedKey(org, ident, h))
      {
        WrittenKey(org, ident, h, file);
      }
    }
  }

  lemma PartitionFile(org: string, ident: string, h: int, file: string)
    ensures Partition(org, ident, h) + "/" + file
            == Join(["org", org, "device", ident, "date=" + DateText(DayOfHour(h)), "hour=" + HourText(h), file], '/')
  {
    hide Join;
    var a := ["org", org, "device", ident, "date=" + DateText(DayOfHour(h)), "hour=" + HourText(h)];
    JoinConcat(a, [file], '/');
    JoinOne(file);
    assert a + [file] == ["org", org, "device", ident, "date=" + DateText(DayOfHour(h)), "hour=" + HourText(h), file];
  }

  lemma WrittenKey(org: string, ident: string, h: int, file: string)
    requires org != "" && '/' !in org && ident != "" && '\n' !in ident && file != "" && '/' !in file && FourDigitHour(h)
    ensures ParseObjectKey(Partition(org, ident, h) + "/" + file) == Some(ParsedKey(org, ident, h))
  {
    hide Join, ParseObjectKey, DateText, Numeral, FourDigitYear, Partition, ParseDate, DateShape, Value;
    var date, hour := DateText(DayOfHour(h)), HourText(h);
    PartitionFile(org, ident, h, file);
    HourTextFacts(h);
    DateRoundTrip(DayOfHour(h));
    DateTextChars(DayOfHour(h));
    SlashFree(date);
    SlashFree(hour);
    ParseJoined(org, ident, date, hour, file);
  }

  lemma ReadKey(key: string, org: string, ident: string, h: int)
    requires ParseObjectKey(key) == Some(ParsedKey(org, ident, h))
    ensures org != "" && '/' !in org && ident != "" && '\n' !in ident && FourDigitHour(h)
    ensures exists file :: file != "" && '/' !in file && key == Partition(org, ident, h) + "/" + file
  {
    hide Partition, FourDigitYear, DateShape, Join;
    var f := MatchKey(key).value;
    MatchKeyUnique(key, f);
    ParsedYear(key);
    Exports.FieldTexts(f);
    PartitionFile(org, ident, h, f.file);
  }

  /** An object is read for a query exactly when it is of the organization, its hour meets the range, and its device
      is asked for: with no list, or a list of empty strings, every device is. */
  lemma MatchExact(key: string, q: Query)
    ensures Matches(key, q) <==>
            && ParseObjectKey(key).Some?
            && var p := ParseObjectKey(key).value;
               && p.org == q.org && q.from / NANOS_PER_HOUR <= p.hour <= q.to / NANOS_PER_HOUR
               && ((forall id :: id in q.deviceIds ==> id == "") || (p.ident in q.deviceIds))
  {
    hide ParseObjectKey, HourOf;
    HoursAndDays(q.from);
    HoursAndDays(q.to);
    if ParseObjectKey(key).Some? {
      NamedDevice(key);
      var want := WantedDevices(q.deviceIds);
      if want.Some? && want.value != {} {
        var id :| id in want.value;
        assert id in q.deviceIds && id != "";
      }
      if id :| id in q.deviceIds && id != "" { assert id in want.value; }
    }
  }

  lemma NamedDevice(key: string)
    requires ParseObjectKey(key).Some?
    ensures ParseObjectKey(key).value.ident != ""
  {
    MatchKeyUnique(key, MatchKey(key).value);
  }

  /* ---------- instants ---------- */

  lemma ClockLayout(h: nat, m: nat, s: nat)
    requires h < 24 && m < 60 && s < 60
    ensures ClockText(h, m, s) ==
            [Digit(h / 10), Digit(h % 10), ':', Digit(m / 10), Digit(m % 10), ':', Digit(s / 10), Digit(s % 10)]
  {
    hide Numeral, Digit;
    TwoDigitText(h);
    TwoDigitText(m);
    TwoDigitText(s);
  }

  lemma TimeParts(t: int)
    ensures HourOf(t) % 24 == t / NANOS_PER_HOUR % 24
    ensures MinuteOf(t) % 60 == t / 60_000_000_000 % 60 && SecondOf(t) % 60 == t / 1_000_000_000 % 60
  {
    HoursAndDays(t);
    assert t / 1_000_000_000 / 60 == t / 60_000_000_000;
  }

  /** A timestamp: the date, T, hours, minutes and seconds of the UTC day with colons between, the fraction, Z. */
  lemma InstantWritten(t: int)
    ensures var h, m, s := t / NANOS_PER_HOUR % 24, t / 60_000_000_000 % 60, t / 1_000_000_000 % 60;
            InstantText(t) == DateText(t / NANOS_PER_DAY) + "T"
              + [Digit(h / 10), Digit(h % 10), ':', Digit(m / 10), Digit(m % 10), ':', Digit(s / 10), Digit(s % 10)]
              + FractionText(t % 1_000_000_000) + "Z"
  {
    hide DateText, Digit, FractionText, ClockText, HourOf, MinuteOf, SecondOf, DayOf;
    HoursAndDays(t);
    TimeParts(t);
    ClockLayout(HourOf(t) % 24, MinuteOf(t) % 60, SecondOf(t) % 60);
  }

  lemma ClockRead(c: string)
    requires ParseClock(c).Some?
    ensures var (h, m, s) := ParseClock(c).value;
            0 <= h < 24 && 0 <= m < 60 && 0 <= s < 60 && ClockText(h, m, s) == c
  {
    ValueNumeral(c[..2]);
    ValueNumeral(c[3..5]);
    ValueNumeral(c[6..]);
    assert c == c[..2] + ":" + c[3..5] + ":" + c[6..];
  }

  lemma InstantOf(t: int, day: int, h: int, m: int, s: int, nanos: int)
    requires 0 <= h < 24 && 0 <= m < 60 && 0 <= s < 60 && 0 <= nanos < 1_000_000_000
        && t == Instant(day, h, m, s, nanos)
    ensures DayOf(t) == day && HourOf(t) % 24 == h && MinuteOf(t) % 60 == m && SecondOf(t) % 60 == s
    ensures t % 1_000_000_000 == nanos
  {
    assert SecondOf(t) == 60 * (60 * (24 * day + h) + m) + s;
    assert MinuteOf(t) == 60 * (24 * day + h) + m;
    assert HourOf(t) == 24 * day + h;
  }

  lemma FractionRange(f: string)
    requires FractionShape(f)
    ensures 0 <= FractionValue(f) < 1_000_000_000
  {
    if f != "" {
      var digits := if |f| > 10 then f[1..10] else f[1..];
      PadValue(digits, 9);
      PadLength(digits, 9);
      ValueNumeral(PadZeros(digits, 9));
      Pow10Nine();
    }
  }

  lemma {:induction false} PadLength(s: string, w: nat)
    requires |s| <= w
    ensures |PadZeros(s, w)| == w
    decreases w - |s|
  {
    if |s| < w { PadLength(s + "0", w); }
  }

  /** The date and clock of an instant with some fraction behind. */
  predicate Spelled(s: string, t: int, f: string) {
    && FractionShape(f) && FractionValue(f) == t % 1_000_000_000
    && s == DateText(DayOf(t)) + "T" + ClockText(HourOf(t) % 24, MinuteOf(t) % 60, SecondOf(t) % 60) + f + "Z"
  }

  /** A timestamp reads as an instant exactly when it is the instant's date and clock and a fraction of its value. */
  lemma InstantRead(s: string, t: int)
    ensures ParseInstant(s) == Some(t) <==> FourDigitInstant(t) && exists f :: Spelled(s, t, f)
  {
    hide DateText, FractionText, ClockText, FourDigitYear, ParseDate, ParseClock, FractionShape, FractionValue, HourOf,
      MinuteOf, SecondOf, DayOf;
    if ParseInstant(s) == Some(t) {
      SpellingRead(s, t);
    }
    if FourDigitInstant(t) {
      forall f | Spelled(s, t, f) ensures ParseInstant(s) == Some(t) { ReadSpelling(s, t, f); }
    }
  }

  lemma SpellingRead(s: string, t: int)
    requires ParseInstant(s) == Some(t)
    ensures FourDigitInstant(t) && Spelled(s, t, s[19..|s| - 1])
  {
    hide DateText, ClockText, FourDigitYear, ParseDate, ParseClock, FractionShape, FractionValue, Instant, HourOf,
      MinuteOf, SecondOf, DayOfHour;
    var day, c, f := ParseDate(s[..10]).value, ParseClock(s[11..19]).value, s[19..|s| - 1];
    DateTextRoundTrip(s[..10]);
    ClockRead(s[11..19]);
    FractionRange(f);
    InstantOf(t, day, c.0, c.1, c.2, FractionValue(f));
    assert s == s[..10] + "T" + s[11..19] + f + "Z";
  }

  lemma ReadSpelling(s: string, t: int, f: string)
    requires FourDigitInstant(t) && Spelled(s, t, f)
    ensures ParseInstant(s) == Some(t)
  {
    hide DateText, ClockText, FourDigitYear, ParseDate, ParseClock, FractionShape, FractionValue, ParseInstant, Instant;
    var day, h, m, sec := DayOf(t), HourOf(t) % 24, MinuteOf(t) % 60, SecondOf(t) % 60;
    InstantParts(t);
    ClockRoundTrip(h, m, sec);
    DateRoundTrip(day);
    DateWidth(day);
    ParseLayout(DateText(day), ClockText(h, m, sec), f);
  }

  /* ---------- rows ---------- */

  predicate Harmless(f: string) {
    && (forall i :: 0 <= i < |f| ==> f[i] != ',' && f[i] != '"' && f[i] != '\r' && f[i] != '\n' && f[i] != '\\')
    && (f != "" ==> !IsSpace(f[0]))
  }

  lemma HarmlessEmit(f: string)
    requires Harmless(f)
    ensures Emit(f) == f
  {
    assert "\\."[0] == '\\';
  }

  lemma UuidHarmless(u: Uuid)
    ensures Harmless(u)
  {
  }

  lemma IdentifierHarmless(s: string)
    requires IsIdentifier(s)
    ensures Harmless(s)
  {
  }

  lemma NumberHarmless(n: Number)
    ensures Harmless(n)
  {
    hide IsDecimal;
  }

  lemma InstantHarmless(t: int)
    ensures Harmless(InstantText(t))
  {
    hide DateText, FractionText, IsSpace, Digit;
    InstantWritten(t);
    InstantTextEdges(t);
    DateStart(t);
    DateTextChars(t / NANOS_PER_DAY);
    FractionForm(t % 1_000_000_000);
  }

  lemma CommaCons(x: string, rest: Row)
    requires rest != [] && Harmless(x)
    ensures EmitRow([x] + rest) == x + "," + EmitRow(rest)
  {
    HarmlessEmit(x);
    assert ([x] + rest)[1..] == rest;
  }

  lemma LastCell(x: string)
    requires Harmless(x)
    ensures EmitRow([x]) == x + "\n"
  {
    HarmlessEmit(x);
  }

  /** The line of an accepted record: its six columns with commas between, none of them quoted. */
  lemma AcceptedLine(rec: Record)
    requires Accepted(rec)
    ensures EmitRow(EncodeRow(rec)) ==
            rec.org + "," + (rec.ident + "," + (rec.temperature + "," + (rec.pressure + "," + (rec.humidity + ","
              + (InstantText(rec.ts) + "\n")))))
  {
    hide EmitRow, Harmless, InstantText, IsNumber, IsUuid, IsIdentifier;
    UuidHarmless(rec.org);
    IdentifierHarmless(rec.ident);
    NumberHarmless(rec.temperature);
    NumberHarmless(rec.pressure);
    NumberHarmless(rec.humidity);
    InstantHarmless(rec.ts);
    var ts := InstantText(rec.ts);
    LastCell(ts);
    CommaCons(rec.humidity, [ts]);
    CommaCons(rec.pressure, [rec.humidity] + [ts]);
    CommaCons(rec.temperature, [rec.pressure] + ([rec.humidity] + [ts]));
    CommaCons(rec.ident, [rec.temperature] + ([rec.pressure] + ([rec.humidity] + [ts])));
    CommaCons(rec.org, [rec.ident] + ([rec.temperature] + ([rec.pressure] + ([rec.humidity] + [ts]))));
    RowOf(rec, ts);
  }

  lemma RowOf(rec: Record, ts: string)
    requires ts == InstantText(rec.ts)
    ensures EncodeRow(rec) == [rec.org]
        + ([rec.ident] + ([rec.temperature] + ([rec.pressure] + ([rec.humidity] + [ts]))))
  {
    hide InstantText;
  }

  /** The lines of records, one after the other. */
  function Lines(recs: seq<Record>): string {
    if recs == [] then "" else EmitRow(EncodeRow(recs[0])) + Lines(recs[1..])
  }

  lemma {:induction false} RowsLines(recs: seq<Record>)
    ensures EmitRows(Rows(recs)) == Lines(recs)
  {
    hide EmitRow, EncodeRow;
    if recs != [] {
      RowsLines(recs[1..]);
      assert Rows(recs) == [EncodeRow(recs[0])] + Rows(recs[1..]);
    }
  }

  lemma ShortLine(x: string, y: string, z: string)
    requires Harmless(x) && Harmless(y) && Harmless(z)
    ensures EmitRow([x, y, z]) == x + "," + (y + "," + (z + "\n"))
  {
    hide EmitRow, Harmless;
    LastCell(z);
    CommaCons(y, [z]);
    CommaCons(x, [y] + [z]);
    assert [x] + ([y] + [z]) == [x, y, z];
  }

  lemma LongLine(a: string, b: string, c: string, rest: Row)
    requires Harmless(a) && Harmless(b) && Harmless(c) && rest != []
    ensures EmitRow([a, b, c] + rest) == a + "," + (b + "," + (c + "," + EmitRow(rest)))
  {
    hide EmitRow, Harmless;
    CommaCons(c, rest);
    CommaCons(b, [c] + rest);
    CommaCons(a, [b] + ([c] + rest));
    assert [a] + ([b] + ([c] + rest)) == [a, b, c] + rest;
  }

  /** The line of column names. */
  lemma HeaderLine()
    ensures EmitRow(HEADER) ==
            "organization_id" + "," + ("device_identifier" + "," + ("temperature" + ","
              + ("pressure" + "," + ("humidity" + "," + ("ts" + "\n")))))
  {
    hide EmitRow;
    assert Harmless("organization_id") && Harmless("device_identifier") && Harmless("temperature");
    assert Harmless("pressure") && Harmless("humidity") && Harmless("ts");
    hide Harmless;
    ShortLine("pressure", "humidity", "ts");
    LongLine("organization_id", "device_identifier", "temperature", ["pressure", "humidity", "ts"]);
    HeaderHalves();
  }

  lemma HeaderHalves()
    ensures HEADER == ["organization_id", "device_identifier", "temperature"] + ["pressure", "humidity", "ts"]
  {
  }

  /** A file: the line of column names and then the lines of its records. */
  lemma FileWritten(recs: seq<Record>)
    ensures FileText(Rows(recs)) == EmitRow(HEADER) + Lines(recs)
  {
    hide EmitRow, EmitRows, Rows, Lines;
    RowsLines(recs);
  }

  /** A row is read as a record exactly when, white space around organization, device and timestamp aside, each of
      its six columns holds that value of the record. */
  lemma DecodeExact(cols: Row, rec: Record)
    ensures DecodeRow(cols) == Some(rec) <==>
            && |cols| == 6 && rec.deviceId == NO_DEVICE && rec.ident != ""
            && TrimSpace(cols[0]) == rec.org && TrimSpace(cols[1]) == rec.ident
            && cols[2] == rec.temperature && cols[3] == rec.pressure && cols[4] == rec.humidity
            && ParseInstant(TrimSpace(cols[5])) == Some(rec.ts)
  {
    hide TrimSpace, ParseInstant, IsNumber, IsUuid;
  }

  /** So white space around those three columns changes nothing. */
  lemma PaddedRow(rec: Record, l: seq<string>, r: seq<string>)
    requires Trimmed(rec) && FourDigitInstant(rec.ts) && |l| == 3 && |r| == 3
    requires forall i :: 0 <= i < 3 ==> AllSpace(l[i]) && AllSpace(r[i])
    ensures DecodeRow([l[0] + rec.org + r[0], l[1] + rec.ident + r[1], rec.temperature, rec.pressure, rec.humidity,
                       l[2] + InstantText(rec.ts) + r[2]])
            == Some(rec.(deviceId := NO_DEVICE))
  {
    hide TrimSpace, ParseInstant, InstantText, IsNumber, IsUuid, IsSpace, FourDigitInstant;
    UuidEdges(rec.org);
    DateStart(rec.ts);
    TrimSpacePadded(l[0], rec.org, r[0]);
    TrimSpacePadded(l[1], rec.ident, r[1]);
    InstantTextEdges(rec.ts);
    TrimSpacePadded(l[2], InstantText(rec.ts), r[2]);
    InstantRoundTrip(rec.ts);
  }

  lemma UuidEdges(u: Uuid)
    ensures u != "" && !IsSpace(u[0]) && !IsSpace(u[|u| - 1])
  {
  }
}
