/** Exports: choosing archive objects by key, and merging their rows into one file. */
module Merge {
  import opened Text
  import opened Telemetry
  import opened Keys
  import opened Paths
  import opened Storage
  import opened Csv

  datatype Query = Query(org: Uuid, deviceIds: seq<string>, from: int, to: int)

  /** deviceSet: None is the nil map. */
  function WantedDevices(ids: seq<string>): Option<set<string>> {
    if ids == [] then None else Some(set id | id in ids && id != "")
  }

  method DeviceSet(ids: seq<string>) returns (want: Option<set<string>>)
    ensures want == WantedDevices(ids)
  {
    if |ids| == 0 { return None; }
    var out: set<string> := {};
    for i := 0 to |ids|
      invariant out == set id | id in ids[..i] && id != ""
    {
      if ids[i] == "" { continue; }
      out := out + {ids[i]};
    }
    assert ids[..|ids|] == ids;
    want := Some(out);
  }

  /* ---------- choosing the objects ---------- */

  predicate Matches(key: string, q: Query) {
    MatchesQuery(key, q.org, WantedDevices(q.deviceIds), q.from, q.to)
  }

  function Select(keys: seq<string>, q: Query): (r: seq<string>)
    ensures forall k :: k in r <==> k in keys && Matches(k, q)
  {
    if keys == [] then []
    else if Matches(keys[0], q) then [keys[0]] + Select(keys[1..], q)
    else Select(keys[1..], q)
  }

  lemma {:induction false} SelectAscending(keys: seq<string>, q: Query)
    requires Ascending(keys)
    ensures Ascending(Select(keys, q))
  {
    hide Matches, Less;
    if keys != [] {
      SelectAscending(keys[1..], q);
      var r := Select(keys[1..], q);
      forall j | 0 <= j < |r| ensures Less(keys[0], r[j]) {
        assert r[j] in keys[1..];
      }
    }
  }

  lemma SelectConcat(a: seq<string>, b: seq<string>, q: Query)
    ensures Select(a + b, q) == Select(a, q) + Select(b, q)
  {
    hide Matches;
    if a == [] {
      assert a + b == b;
    } else {
      assert (a + b)[1..] == a[1..] + b;
      SelectConcat(a[1..], b, q);
    }
  }

  /** The keys an export reads, in the order it reads them. */
  ghost function MatchingKeys(blob: map<string, string>, q: Query): seq<string> {
    Select(Listing(blob.Keys), q)
  }

  /** A matching key starts with the prefix that List is asked for. */
  lemma MatchHasPrefix(key: string, q: Query)
    requires Matches(key, q)
    ensures StartsWith(key, OrgPrefix(q.org)) && TrimSpace(OrgPrefix(q.org)) == OrgPrefix(q.org)
  {
    var f := MatchKey(key).value;
    MatchKeyUnique(key, f);
    var rest := ["device", f.ident, "date=" + f.date, "hour=" + f.hour, f.file];
    JoinPrefix("org", f.org, rest);
    assert ["org", f.org] + rest == ["org", f.org, "device", f.ident, "date=" + f.date, "hour=" + f.hour, f.file];
    assert OrgPrefix(q.org) == "org" + "/" + f.org + "/";
  }

  lemma JoinPrefix(a: string, b: string, rest: seq<string>)
    requires rest != []
    ensures StartsWith(Join([a, b] + rest, '/'), a + "/" + b + "/")
  {
    hide Join;
    JoinConcat([a, b], rest, '/');
    JoinTwo(a, b);
  }

  lemma JoinTwo(a: string, b: string)
    ensures Join([a, b], '/') == a + "/" + b
  {
  }

  lemma SelectNext(keys: seq<string>, k: string, q: Query)
    ensures Select(keys + [k], q) ==
            Select(keys, q) + (if MatchesQuery(k, q.org, WantedDevices(q.deviceIds), q.from, q.to) then [k] else [])
  {
    hide MatchesQuery;
    SelectConcat(keys, [k], q);
  }

  method ListMatching(objects: Memory?, q: Query) returns (r: Option<seq<string>>)
    ensures r == if objects == null then None else Some(MatchingKeys(objects.blob, q))
  {
    hide Matches, Sort, Listing, Ascending, KeysUnder;
    if objects == null { return None; }
    var keys := objects.List(OrgPrefix(q.org));
    var want := DeviceSet(q.deviceIds);
    var match_ := [];
    for i := 0 to |keys|
      invariant match_ == Select(keys[..i], q)
    {
      assert keys[..i + 1] == keys[..i] + [keys[i]];
      SelectNext(keys[..i], keys[i], q);
      if MatchesQuery(keys[i], q.org, want, q.from, q.to) {
        match_ := match_ + [keys[i]];
      }
    }
    assert keys[..|keys|] == keys;
    SelectAscending(keys, q);
    AscendingDistinct(match_);
    var sorted := Sort(match_);
    SortedSelection(objects.blob, keys, sorted, q);
    r := Some(sorted);
  }

  lemma AscendingDistinct(keys: seq<string>)
    requires Ascending(keys)
    ensures Distinct(keys)
  {
    forall i, j | 0 <= i < j < |keys| ensures keys[i] != keys[j] { LessTotal(keys[i], keys[j]); }
  }

  lemma SortedSelection(blob: map<string, string>, keys: seq<string>, sorted: seq<string>, q: Query)
    requires Ascending(sorted) && Elements(sorted) == Elements(Select(keys, q))
    requires Elements(keys) == KeysUnder(blob, OrgPrefix(q.org))
    ensures sorted == MatchingKeys(blob, q)
  {
    var all := Listing(blob.Keys);
    SelectAscending(all, q);
    forall k ensures k in Elements(sorted) <==> k in Elements(Select(all, q)) {
      assert k in Elements(keys) <==> k in keys;
      assert k in Elements(all) <==> k in all;
      if Matches(k, q) { MatchHasPrefix(k, q); }
    }
    AscendingUnique(sorted, Select(all, q));
  }

  /* ---------- merging their rows ---------- */

  /** The record a row contributes to an export, if it decodes and passes the row filter. */
  function KeepRow(row: Row, q: Query): Option<Record> {
    match DecodeRow(row)
    case None => None
    case Some(rec) => if Wanted(rec, q) then Some(rec) else None
  }

  /** The row filter: no device list means every device, a list of empty strings none. */
  predicate Wanted(rec: Record, q: Query): (r: bool)
    ensures r <==> rec.org == q.org && q.from <= rec.ts <= q.to
                   && (q.deviceIds == [] || (rec.ident != "" && rec.ident in q.deviceIds))
  {
    var want := WantedDevices(q.deviceIds);
    && rec.org == q.org
    && (want == None || rec.ident in want.value)
    && q.from <= rec.ts <= q.to
  }

  function KeepRows(rows: seq<Row>, q: Query): (r: seq<Row>)
    ensures Uniform(r, 6)
  {
    if rows == [] then []
    else
      match KeepRow(rows[0], q)
      case None => KeepRows(rows[1..], q)
      case Some(rec) => [EncodeRow(rec)] + KeepRows(rows[1..], q)
  }

  lemma {:induction false} KeepConcat(a: seq<Row>, b: seq<Row>, q: Query)
    ensures KeepRows(a + b, q) == KeepRows(a, q) + KeepRows(b, q)
  {
    hide KeepRow;
    if a == [] {
      assert a + b == b;
    } else {
      assert (a + b)[1..] == a[1..] + b;
      KeepConcat(a[1..], b, q);
    }
  }

  function DropHeader(rows: seq<Row>): seq<Row> {
    if rows != [] && IsHeader(rows[0]) then rows[1..] else rows
  }

  /** What one object contributes; None when its text is not CSV. */
  function ObjectRows(text: string, q: Query): (r: Option<seq<Row>>)
    ensures r.Some? ==> Uniform(r.value, 6)
  {
    match ReadCsv(text)
    case None => None
    case Some(rows) => Some(KeepRows(DropHeader(rows), q))
  }

  function RowsAt(blob: map<string, string>, key: string, q: Query): (r: Option<seq<Row>>)
    ensures r.Some? ==> Uniform(r.value, 6)
  {
    var got := Fetch(blob, key);
    if got.Found? then ObjectRows(got.body, q) else None
  }

  function Both(a: Option<seq<Row>>, b: Option<seq<Row>>): Option<seq<Row>> {
    if a.Some? && b.Some? then Some(a.value + b.value) else None
  }

  /** What the objects contribute in order; None when one is missing or is not CSV. */
  function MergeRows(blob: map<string, string>, keys: seq<string>, q: Query): (r: Option<seq<Row>>)
    ensures r.Some? ==> Uniform(r.value, 6)
  {
    if keys == [] then Some([]) else Both(RowsAt(blob, keys[0], q), MergeRows(blob, keys[1..], q))
  }

  lemma BothAssociates(a: Option<seq<Row>>, b: Option<seq<Row>>, c: Option<seq<Row>>)
    ensures Both(Both(a, b), c) == Both(a, Both(b, c))
    ensures Both(a, Some([])) == a && Both(Some([]), a) == a
  {
    if a.Some? {
      assert a.value + [] == a.value && [] + a.value == a.value;
      if b.Some? && c.Some? { assert a.value + b.value + c.value == a.value + (b.value + c.value); }
    }
  }

  lemma {:induction false} MergeStep(blob: map<string, string>, keys: seq<string>, i: nat, q: Query)
    requires i < |keys|
    ensures MergeRows(blob, keys[..i + 1], q) == Both(MergeRows(blob, keys[..i], q), RowsAt(blob, keys[i], q))
  {
    hide RowsAt, Both;
    var r := RowsAt(blob, keys[0], q);
    if i == 0 {
      BothAssociates(r, r, r);
      assert keys[..1] == [keys[0]] && keys[..0] == [];
    } else {
      MergeStep(blob, keys[1..], i - 1, q);
      assert keys[..i + 1][1..] == keys[1..][..i] && keys[..i][1..] == keys[1..][..i - 1];
      BothAssociates(r, MergeRows(blob, keys[1..][..i - 1], q), RowsAt(blob, keys[i], q));
    }
  }

  lemma {:induction false} MergeStops(blob: map<string, string>, keys: seq<string>, i: nat, q: Query)
    requires i < |keys| && RowsAt(blob, keys[i], q) == None
    ensures MergeRows(blob, keys, q) == None
  {
    hide RowsAt;
    if i > 0 { MergeStops(blob, keys[1..], i - 1, q); }
  }

  /** Text so far followed by the rows of a result. */
  function Extended(text: string, rows: Option<seq<Row>>): Option<string>
    requires rows.Some? ==> NonEmptyRows(rows.value)
  {
    if rows.Some? then Some(text + EmitRows(rows.value)) else None
  }

  /** appendObject: the rows of one object are filtered and appended to the text written so far. */
  method AppendObject(objects: Memory, key: string, q: Query, want: Option<set<string>>,
          text: string) returns (r: Option<string>)
    requires want == WantedDevices(q.deviceIds)
    ensures r == Extended(text, RowsAt(objects.blob, key, q))
  {
    hide ReadCsv, DecodeRow, IsHeader, EncodeRow, EmitRow, EmitRows, NormalizeKey, WantedDevices;
    var got := objects.Get(key);
    if !got.Found? { return None; }
    var read := ReadCsv(got.body);
    if read == None { return None; }
    var rows := read.value;
    var out, first := text, true;
    ghost var kept := DropHeader(rows);
    ghost var skipped := |rows| - |kept|;
    EmitNone(text);
    for i := 0 to |rows|
      invariant first <==> i == 0
      invariant i == 0 ==> out == text
      invariant i > 0 ==> out == text + EmitRows(KeepRows(kept[..i - skipped], q))
    {
      if first && IsHeader(rows[i]) {
        assert kept[..0] == [];
        first := false;
        continue;
      }
      first := false;
      assert rows[i] == kept[i - skipped];
      KeepNext(kept, i - skipped, q, text);
      match DecodeRow(rows[i])
      case None => continue;
      case Some(rec) =>
        if rec.org != q.org { continue; }
        if want != None && rec.ident !in want.value { continue; }
        if rec.ts < q.from || rec.ts > q.to { continue; }
        EncodedWidth(rec);
        out := out + EmitRow(EncodeRow(rec));
    }
    assert kept[..|kept|] == kept;
    r := Some(out);
  }

  lemma EmitNone(text: string)
    ensures text + EmitRows([]) == text
  {
  }

  lemma KeepNext(rows: seq<Row>, i: nat, q: Query, text: string)
    requires i < |rows|
    ensures i == 0 ==> text + EmitRows(KeepRows(rows[..i], q)) == text
    ensures text + EmitRows(KeepRows(rows[..i + 1], q)) ==
            text + EmitRows(KeepRows(rows[..i], q))
                + (if KeepRow(rows[i], q).Some? then EmitRow(EncodeRow(KeepRow(rows[i], q).value)) else "")
  {
    hide KeepRow, EncodeRow, EmitRow;
    var a, k := KeepRows(rows[..i], q), KeepRow(rows[i], q);
    assert rows[..i + 1] == rows[..i] + [rows[i]];
    KeepConcat(rows[..i], [rows[i]], q);
    var b := KeepRows([rows[i]], q);
    EmitRowsConcat(a, b);
    if k.Some? {
      assert b == [EncodeRow(k.value)];
      assert EmitRows(b) == EmitRow(EncodeRow(k.value)) + "";
    }
    assert text + (EmitRows(a) + EmitRows(b)) == text + EmitRows(a) + EmitRows(b);
  }

  /** The file of an export: header once, then the merged rows. */
  function MergedText(rows: Option<seq<Row>>): Option<string>
    requires rows.Some? ==> NonEmptyRows(rows.value)
  {
    if rows.Some? then Some(FileText(rows.value)) else None
  }

  method MergeCsv(objects: Memory, keys: seq<string>, q: Query) returns (r: Option<string>)
    ensures r == MergedText(MergeRows(objects.blob, keys, q))
  {
    hide RowsAt, EmitRow, EmitRows, WantedDevices;
    var want := DeviceSet(q.deviceIds);
    var text := EmitRow(HEADER);
    EmitNone(text);
    for i := 0 to |keys|
      invariant MergeRows(objects.blob, keys[..i], q).Some?
      invariant text == FileText(MergeRows(objects.blob, keys[..i], q).value)
    {
      MergeStep(objects.blob, keys, i, q);
      var more := AppendObject(objects, keys[i], q, want, text);
      if more == None {
        MergeStops(objects.blob, keys, i, q);
        return None;
      }
      FileTextConcat(MergeRows(objects.blob, keys[..i], q).value, RowsAt(objects.blob, keys[i], q).value);
      text := more.value;
    }
    assert keys[..|keys|] == keys;
    r := Some(text);
  }

  lemma FileTextConcat(a: seq<Row>, b: seq<Row>)
    requires NonEmptyRows(a) && NonEmptyRows(b)
    ensures FileText(a + b) == FileText(a) + EmitRows(b)
  {
    hide EmitRow, EmitRows;
    EmitRowsConcat(a, b);
  }
}
