/** Archive object keys: org/<org>/device/<device>/date=<yyyy-mm-dd>/hour=<hh>/<file>. */
module Keys {
  import opened Text
  import opened Calendar
  import opened Telemetry

  function OrgPrefix(org: string): string { "org/" + org + "/" }

  /** PartitionKey for a record of this organization and device in hour h. */
  function Partition(org: string, ident: string, h: int): string {
    Join(["org", org, "device", ident, "date=" + DateText(DayOfHour(h)), "hour=" + HourText(h)], '/')
  }

  function PartitionKey(rec: Record): string { Partition(rec.org, rec.ident, HourOf(rec.ts)) }

  function ObjectKey(partition: string, fileId: string): string { partition + "/" + fileId + ".csv" }

  function TrimSlashes(s: string): (t: string)
    ensures t == "" || (t[0] != '/' && t[|t| - 1] != '/')
  {
    if s != "" && s[0] == '/' then TrimSlashes(s[1..])
    else if s != "" && s[|s| - 1] == '/' then TrimSlashes(s[..|s| - 1])
    else s
  }

  function ExportObjectKey(prefix: string, org: Uuid, job: Uuid): string {
    var p := TrimSlashes(prefix);
    Join([if p == "" then "exports" else p, org, job + ".csv"], '/')
  }

  /* ---------- parsing ---------- */

  datatype KeyFields = KeyFields(org: string, ident: string, date: string, hour: string, file: string)

  /** The regular expression objectKeyRE as a relation: f is a way to match the key. */
  predicate KeyForm(key: string, f: KeyFields) {
    && key == Join(["org", f.org, "device", f.ident, "date=" + f.date, "hour=" + f.hour, f.file], '/')
    && f.org != "" && '/' !in f.org
    && f.ident != "" && '\n' !in f.ident
    && DateShape(f.date)
    && |f.hour| == 2 && AllDigits(f.hour)
    && f.file != "" && '/' !in f.file
  }

  /** FindStringSubmatch of objectKeyRE: the first three and the last three segments are fixed, the device is
      what lies between. */
  function MatchKey(key: string): Option<KeyFields> {
    var p := Split(key, '/');
    var n := |p|;
    if n < 7 then None
    else
      var ident := Join(p[3..n - 3], '/');
      if && p[0] == "org" && p[1] != "" && p[2] == "device" && ident != "" && '\n' !in ident
         && "date=" <= p[n - 3] && DateShape(p[n - 3][5..])
         && "hour=" <= p[n - 2] && |p[n - 2]| == 7 && AllDigits(p[n - 2][5..]) && p[n - 1] != ""
      then Some(KeyFields(p[1], ident, p[n - 3][5..], p[n - 2][5..], p[n - 1]))
      else None
  }

  lemma KeySegments(org: string, ident: string, date: string, hour: string, file: string)
    requires '/' !in org && '/' !in date && '/' !in hour && '/' !in file
    ensures Split(Join(["org", org, "device", ident, date, hour, file], '/'), '/')
            == ["org", org, "device"] + Split(ident, '/') + [date, hour, file]
  {
    hide Join, Split;
    var a, b := ["org", org, "device"], [date, hour, file];
    JoinOne(ident);
    assert ["org", org, "device", ident, date, hour, file] == a + ([ident] + b);
    JoinConcat(a, [ident] + b, '/');
    JoinConcat([ident], b, '/');
    SplitConcat(Join(a, '/'), ident + ['/'] + Join(b, '/'), '/');
    SplitConcat(ident, Join(b, '/'), '/');
    SplitJoin(a, '/');
    SplitJoin(b, '/');
    assert a + (Split(ident, '/') + b) == a + Split(ident, '/') + b;
  }

  lemma SlashFree(s: string)
    requires forall i :: 0 <= i < |s| ==> s[i] == '-' || IsDigit(s[i])
    ensures '/' !in s && '/' !in "date=" + s && '/' !in "hour=" + s
  {
  }

  lemma FormMatches(key: string, f: KeyFields)
    requires KeyForm(key, f)
    ensures MatchKey(key) == Some(f)
  {
    hide Join, Split, DateShape;
    SlashFreeDate(f.date);
    SlashFreeHour(f.hour);
    KeySegments(f.org, f.ident, "date=" + f.date, "hour=" + f.hour, f.file);
    var p := Split(key, '/');
    assert p[3..|p| - 3] == Split(f.ident, '/');
    assert p[|p| - 3] == "date=" + f.date && p[|p| - 2] == "hour=" + f.hour;
  }

  lemma SlashFreeHour(hour: string)
    requires AllDigits(hour)
    ensures '/' !in "hour=" + hour
  {
    SlashFree(hour);
  }

  lemma SlashFreeDate(date: string)
    requires DateShape(date)
    ensures '/' !in "date=" + date
  {
    forall i | 0 <= i < |date| ensures date[i] == '-' || IsDigit(date[i]) {
      if i < 4 { assert date[i] == date[..4][i]; }
      else if 5 <= i < 7 { assert date[i] == date[5..7][i - 5]; }
      else if i >= 8 { assert date[i] == date[8..][i - 8]; }
    }
    SlashFree(date);
  }

  lemma MatchForms(key: string, f: KeyFields)
    requires MatchKey(key) == Some(f)
    ensures KeyForm(key, f)
  {
    hide Join, Split, DateShape;
    var p := Split(key, '/');
    var n := |p|;
    var a, b := p[..3], p[n - 3..];
    assert p == a + (p[3..n - 3] + b);
    assert a == ["org", f.org, "device"];
    assert p[n - 3] == "date=" + f.date && p[n - 2] == "hour=" + f.hour;
    assert b == ["date=" + f.date, "hour=" + f.hour, f.file];
    JoinConcat(a, p[3..n - 3] + b, '/');
    JoinConcat(p[3..n - 3], b, '/');
    JoinOne(f.ident);
    var parts := ["org", f.org, "device", f.ident, "date=" + f.date, "hour=" + f.hour, f.file];
    assert parts == a + ([f.ident] + b);
    JoinConcat(a, [f.ident] + b, '/');
    JoinConcat([f.ident], b, '/');
  }

  lemma JoinOne(x: string)
    ensures Join([x], '/') == x
  {
  }

  /** A key matches the expression in at most one way, and MatchKey finds it, whatever the device text is. */
  lemma MatchKeyUnique(key: string, f: KeyFields)
    ensures KeyForm(key, f) <==> MatchKey(key) == Some(f)
  {
    hide *;
    if KeyForm(key, f) { FormMatches(key, f); }
    if MatchKey(key) == Some(f) { MatchForms(key, f); }
  }

  datatype ParsedKey = ParsedKey(org: string, ident: string, hour: int)

  function ParseObjectKey(key: string): Option<ParsedKey> {
    match MatchKey(key)
    case None => None
    case Some(f) => MatchKeyUnique(key, f); ParsedFields(f)
  }

  function ParsedFields(f: KeyFields): Option<ParsedKey>
    requires AllDigits(f.hour)
  {
    match ParseDate(f.date)
    case Some(day) => if Value(f.hour) <= 23 then Some(ParsedKey(f.org, f.ident, 24 * day + Value(f.hour))) else None
    case None => None
  }

  lemma HourTextFacts(h: int)
    ensures |HourText(h)| == 2 && AllDigits(HourText(h)) && Value(HourText(h)) == h % 24
  {
    TwoDigits(h % 24);
  }

  lemma DateTextChars(n: int)
    ensures forall i :: 0 <= i < |DateText(n)| ==> DateText(n)[i] == '-' || IsDigit(DateText(n)[i])
  {
  }

  /** The object key of a partition spelled as one join. */
  lemma ObjectKeyJoin(org: string, ident: string, h: int, fileId: string)
    ensures ObjectKey(Partition(org, ident, h), fileId)
            == Join(["org", org, "device", ident, "date=" + DateText(DayOfHour(h)), "hour=" + HourText(h),
                     fileId + ".csv"], '/')
  {
    var a := ["org", org, "device", ident, "date=" + DateText(DayOfHour(h)), "hour=" + HourText(h)];
    JoinConcat(a, [fileId + ".csv"], '/');
    assert a + [fileId + ".csv"]
        == ["org", org, "device", ident, "date=" + DateText(DayOfHour(h)), "hour=" + HourText(h), fileId + ".csv"];
    assert ObjectKey(Partition(org, ident, h), fileId) == Join(a, '/') + ['/'] + (fileId + ".csv");
  }

  lemma NoDateNoMatch(org: string, ident: string, date: string, hour: string, file: string)
    requires '/' !in org && '/' !in "date=" + date && '/' !in "hour=" + hour && '/' !in file && !DateShape(date)
    ensures MatchKey(Join(["org", org, "device", ident, "date=" + date, "hour=" + hour, file], '/')) == None
  {
    var key := Join(["org", org, "device", ident, "date=" + date, "hour=" + hour, file], '/');
    KeySegments(org, ident, "date=" + date, "hour=" + hour, file);
    var p := Split(key, '/');
    assert p[|p| - 3] == "date=" + date;
    assert p[|p| - 3][5..] == date;
  }

  lemma KeyOfFields(f: KeyFields)
    requires f.org != "" && '/' !in f.org && f.ident != "" && '\n' !in f.ident && DateShape(f.date)
    requires |f.hour| == 2 && AllDigits(f.hour) && f.file != "" && '/' !in f.file
    ensures MatchKey(Join(["org", f.org, "device", f.ident, "date=" + f.date, "hour=" + f.hour, f.file], '/'))
        == Some(f)
  {
    MatchKeyUnique(Join(["org", f.org, "device", f.ident, "date=" + f.date, "hour=" + f.hour, f.file], '/'), f);
  }

  lemma ParsePrinted(org: string, ident: string, day: int, hh: nat, fileId: string)
    requires org != "" && '/' !in org && ident != "" && '\n' !in ident && '/' !in fileId && hh < 24
    ensures ParseObjectKey(Join(["org", org, "device", ident, "date=" + DateText(day), "hour=" + Numeral(hh, 2),
              fileId + ".csv"], '/'))
            == if FourDigitYear(day) then Some(ParsedKey(org, ident, 24 * day + hh)) else None
  {
    hide Join, MatchKey, ParseObjectKey, DateText, Numeral, ParseDate, DateShape, Value, FourDigitYear;
    var date, hour := DateText(day), Numeral(hh, 2);
    TwoDigits(hh);
    DateRoundTrip(day);
    DateTextChars(day);
    SlashFree(date);
    SlashFree(hour);
    ParseJoined(org, ident, date, hour, fileId + ".csv");
  }

  /** Printing a key and parsing it back gives the organization, device and hour exactly when the
      hour's year has four digits, for every device text without a line feed, slashes included. */
  lemma KeyRoundTrip(org: string, ident: string, h: int, fileId: string)
    requires org != "" && '/' !in org && ident != "" && '\n' !in ident && '/' !in fileId
    ensures ParseObjectKey(ObjectKey(Partition(org, ident, h), fileId))
            == if FourDigitHour(h) then Some(ParsedKey(org, ident, h)) else None
  {
    hide Join, ParseObjectKey, DateText, Numeral, FourDigitYear, Partition, ObjectKey;
    ObjectKeyJoin(org, ident, h, fileId);
    ParsePrinted(org, ident, DayOfHour(h), h % 24, fileId);
  }

  lemma ParseJoined(org: string, ident: string, date: string, hour: string, file: string)
    requires org != "" && '/' !in org && ident != "" && '\n' !in ident && file != "" && '/' !in file
    requires '/' !in "date=" + date && '/' !in "hour=" + hour && |hour| == 2 && AllDigits(hour)
    ensures ParseObjectKey(Join(["org", org, "device", ident, "date=" + date, "hour=" + hour, file], '/'))
            == if DateShape(date) then ParsedFields(KeyFields(org, ident, date, hour, file)) else None
  {
    if DateShape(date) {
      KeyOfFields(KeyFields(org, ident, date, hour, file));
    } else {
      NoDateNoMatch(org, ident, date, hour, file);
    }
  }

  lemma ParsedYear(key: string)
    requires ParseObjectKey(key).Some?
    ensures FourDigitHour(ParseObjectKey(key).value.hour)
  {
    var f := MatchKey(key).value;
    MatchKeyUnique(key, f);
    FieldsYear(f);
  }

  lemma FieldsYear(f: KeyFields)
    requires AllDigits(f.hour) && ParsedFields(f).Some?
    ensures FourDigitHour(ParsedFields(f).value.hour)
  {
    hide DateText, ParseDate, FourDigitYear;
    DateTextRoundTrip(f.date);
  }

  lemma SplitDetermines(a: string, b: string)
    requires Split(a, '/') == Split(b, '/')
    ensures a == b
  {
    hide Split;
    assert Join(Split(a, '/'), '/') == a && Join(Split(b, '/'), '/') == b;
  }

  lemma PartitionSegments(org: Uuid, ident: string, h: int)
    ensures Split(ObjectKey(Partition(org, ident, h), ""), '/')
            == ["org", org, "device"] + Split(ident, '/')
                + ["date=" + DateText(DayOfHour(h)), "hour=" + HourText(h), "" + ".csv"]
  {
    hide Join, Split, DateText, Numeral, Partition, ObjectKey;
    ObjectKeyJoin(org, ident, h, "");
    DateTextChars(DayOfHour(h));
    SlashFree(DateText(DayOfHour(h)));
    HourTextFacts(h);
    SlashFreeHour(HourText(h));
    KeySegments(org, ident, "date=" + DateText(DayOfHour(h)), "hour=" + HourText(h), "" + ".csv");
  }

  lemma SegmentsAgree(a: seq<string>, x: seq<string>, c: seq<string>, b: seq<string>, y: seq<string>, d: seq<string>)
    requires a + x + c == b + y + d && |a| == |b| && |c| == |d|
    ensures a == b && x == y && c == d
  {
    var s := a + x + c;
    assert a == s[..|a|] && x == s[|a|..|s| - |c|] && c == s[|s| - |c|..];
    assert b == s[..|b|] && y == s[|b|..|s| - |d|] && d == s[|s| - |d|..];
  }

  lemma HourDetermines(g: int, h: int)
    requires DateText(DayOfHour(g)) == DateText(DayOfHour(h)) && HourText(g) == HourText(h)
    ensures g == h
  {
    hide DateText;
    DateTextDetermines(DayOfHour(g), DayOfHour(h));
    HourTextFacts(g);
    HourTextFacts(h);
  }

  /** Records of one partition agree on organization, device and hour, whatever the year and the device text. */
  lemma PartitionDetermines(a: Record, b: Record)
    requires PartitionKey(a) == PartitionKey(b)
    ensures a.org == b.org && a.ident == b.ident && HourOf(a.ts) == HourOf(b.ts)
  {
    hide Partition, ObjectKey, Split, DateText, HourText, HourOf;
    var g, h := HourOf(a.ts), HourOf(b.ts);
    PartitionSegments(a.org, a.ident, g);
    PartitionSegments(b.org, b.ident, h);
    var s, t := ["date=" + DateText(DayOfHour(g)), "hour=" + HourText(g), "" + ".csv"],
                ["date=" + DateText(DayOfHour(h)), "hour=" + HourText(h), "" + ".csv"];
    SegmentsAgree(["org", a.org, "device"], Split(a.ident, '/'), s, ["org", b.org, "device"], Split(b.ident, '/'), t);
    assert ["org", a.org, "device"][1] == ["org", b.org, "device"][1];
    SplitDetermines(a.ident, b.ident);
    SameTail(DateText(DayOfHour(g)), HourText(g), DateText(DayOfHour(h)), HourText(h));
    HourDetermines(g, h);
  }

  lemma SameTail(d: string, u: string, e: string, v: string)
    requires ["date=" + d, "hour=" + u, "" + ".csv"] == ["date=" + e, "hour=" + v, "" + ".csv"]
    ensures d == e && u == v
  {
    var x, y := ["date=" + d, "hour=" + u, "" + ".csv"], ["date=" + e, "hour=" + v, "" + ".csv"];
    assert x[0] == y[0] && x[1] == y[1];
    assert d == x[0][5..] && e == y[0][5..] && u == x[1][5..] && v == y[1][5..];
  }

  /* ---------- the key filter ---------- */

  /** A nil Go map is None. Instants and hours count from one origin, so Truncate(time.Hour) is HourOf. */
  predicate MatchesQuery(key: string, org: Uuid, devices: Option<set<string>>, from: int, to: int) {
    match ParseObjectKey(key)
    case None => false
    case Some(p) =>
      && p.org == org
      && (devices == None || devices == Some({}) || p.ident in devices.value)
      && HourOf(from) <= p.hour <= HourOf(to)
  }
}
