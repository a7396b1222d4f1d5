/** What an export contains: pruning by key loses nothing, the rows come out in blocks by device and
    hour, and merging an export with its own query changes nothing. */
module Exports {
  import opened Text
  import opened Calendar
  import opened Telemetry
  import opened Keys
  import opened Paths
  import opened Storage
  import opened Csv
  import opened Merge

  /** The records whose rows are in each archive object, by key. */
  type Files = map<string, seq<Record>>

  /** The key names the organization, device and hour of the record. */
  predicate KeyNames(key: string, rec: Record) {
    ParseObjectKey(key) == Some(ParsedKey(rec.org, rec.ident, HourOf(rec.ts)))
  }

  predicate KeyTells(key: string, rec: Record) { Accepted(rec) && KeyNames(key, rec) }

  /** A store whose archive objects are exactly these files, each holding rows of the partition its key
      names. Other objects, such as finished exports, may be present under keys that do not parse. */
  ghost predicate Holds(blob: map<string, string>, files: Files) {
    && (forall k :: k in files <==> k in blob && ParseObjectKey(k).Some?)
    && (forall k :: k in files ==>
          && NormalizeKey(k) == Some(k)
          && blob[k] == FileText(Rows(files[k]))
          && forall i :: 0 <= i < |files[k]| ==> KeyTells(k, files[k][i]))
  }

  /* ---------- the reference: scan every record ---------- */

  function Chosen(recs: seq<Record>, q: Query): (r: seq<Record>)
    ensures forall i :: 0 <= i < |r| ==> r[i] in recs && Wanted(r[i], q)
  {
    if recs == [] then []
    else if Wanted(recs[0], q) then [recs[0]] + Chosen(recs[1..], q)
    else Chosen(recs[1..], q)
  }

  /** Of equal records all or none are chosen, and which says the query in its own terms. */
  lemma {:induction false} ChosenCount(recs: seq<Record>, q: Query, rec: Record)
    ensures multiset(Chosen(recs, q))[rec]
            == if && rec.org == q.org && q.from <= rec.ts <= q.to
                  && (q.deviceIds == [] || (rec.ident != "" && rec.ident in q.deviceIds))
               then multiset(recs)[rec] else 0
  {
    hide Wanted, IsNumber, IsUuid;
    if recs != [] {
      ChosenCount(recs[1..], q, rec);
      assert recs == [recs[0]] + recs[1..];
    }
  }

  /** The wanted records of the files with these keys, file after file. */
  function Scan(files: Files, keys: seq<string>, q: Query): seq<Record>
    requires forall k :: k in keys ==> k in files
  {
    if keys == [] then [] else Chosen(files[keys[0]], q) + Scan(files, keys[1..], q)
  }

  /** The full scan: every archive object in key order, every row filtered. */
  ghost function FullScan(files: Files, q: Query): seq<Record> {
    ListedKeys(files);
    Scan(files, Listing(files.Keys), q)
  }

  lemma ListedKeys(files: Files)
    ensures forall k :: k in Listing(files.Keys) ==> k in files
  {
    forall k | k in Listing(files.Keys) ensures k in files { assert k in Elements(Listing(files.Keys)); }
  }

  /* ---------- one object ---------- */

  lemma KeyYear(key: string, rec: Record)
    requires KeyNames(key, rec)
    ensures FourDigitInstant(rec.ts)
  {
    hide ParseObjectKey, FourDigitHour;
    ParsedYear(key);
  }

  /** A record that reads back from its row, but for its device id. */
  predicate Readable(rec: Record) { Trimmed(rec) && FourDigitInstant(rec.ts) }

  predicate AllReadable(recs: seq<Record>) { forall i :: 0 <= i < |recs| ==> Readable(recs[i]) }

  lemma TellsReadable(key: string, rec: Record)
    requires KeyTells(key, rec)
    ensures Readable(rec)
  {
    hide ParseObjectKey, FourDigitInstant, Trimmed;
    KeyYear(key, rec);
    AcceptedTrimmed(rec);
  }

  lemma RowsConcat(a: seq<Record>, b: seq<Record>)
    ensures Rows(a + b) == Rows(a) + Rows(b)
  {
    hide EncodeRow;
  }

  lemma {:induction false} KeepChosen(recs: seq<Record>, q: Query)
    requires AllReadable(recs)
    ensures KeepRows(Rows(recs), q) == Rows(Chosen(recs, q))
  {
    hide DecodeRow, EncodeRow, Readable, IsNumber, IsUuid;
    if recs != [] {
      var tail := recs[1..];
      KeepChosen(tail, q);
      assert Rows(recs) == [EncodeRow(recs[0])] + Rows(tail);
      KeepEncoded(recs[0], q);
      if Wanted(recs[0], q) {
        assert Rows([recs[0]] + Chosen(tail, q)) == [EncodeRow(recs[0])] + Rows(Chosen(tail, q));
      }
    }
  }

  lemma KeepEncoded(rec: Record, q: Query)
    requires Readable(rec)
    ensures Wanted(rec, q) ==>
              KeepRow(EncodeRow(rec), q).Some? && EncodeRow(KeepRow(EncodeRow(rec), q).value) == EncodeRow(rec)
    ensures !Wanted(rec, q) ==> KeepRow(EncodeRow(rec), q) == None
  {
    hide DecodeRow, FourDigitInstant, Trimmed, WantedDevices, InstantText;
    RowRoundTrip(rec);
  }

  /** A file of readable records contributes the rows of its wanted records. */
  lemma FileRows(recs: seq<Record>, q: Query)
    requires AllReadable(recs)
    ensures ObjectRows(FileText(Rows(recs)), q) == Some(Rows(Chosen(recs, q)))
  {
    hide ReadCsv, FileText, KeepRows, Rows, IsHeader, FourDigitInstant, Trimmed;
    RecordsRoundTrip(recs);
    HeaderIsHeader();
    KeepChosen(recs, q);
    assert ([HEADER] + Rows(recs))[1..] == Rows(recs);
  }

  lemma NameTrim(s: string)
    requires s != "" && 'a' <= s[0] <= 'z' && 'a' <= s[|s| - 1] <= 'z'
    ensures TrimSpace(s) == s
  {
  }

  lemma HeaderIsHeader()
    ensures IsHeader(HEADER)
  {
    hide TrimSpace;
    NameTrim("organization_id");
    NameTrim("device_identifier");
    NameTrim("temperature");
    NameTrim("pressure");
    NameTrim("humidity");
    NameTrim("ts");
  }

  lemma HeldRows(blob: map<string, string>, files: Files, key: string, q: Query)
    requires Holds(blob, files) && key in files
    ensures RowsAt(blob, key, q) == Some(Rows(Chosen(files[key], q)))
  {
    hide NormalizeKey, ParseObjectKey, ObjectRows, FileText, Readable, KeyTells;
    var recs := files[key];
    forall i | 0 <= i < |recs| ensures Readable(recs[i]) { TellsReadable(key, recs[i]); }
    FileRows(recs, q);
  }

  /* ---------- pruning ---------- */

  /** An object whose key does not match has no wanted record, also where the two filters differ:
      a device list of empty strings passes every key and no row. */
  lemma UnmatchedFile(key: string, recs: seq<Record>, q: Query)
    requires !Matches(key, q) && forall i :: 0 <= i < |recs| ==> KeyTells(key, recs[i])
    ensures Chosen(recs, q) == []
  {
    hide ParseObjectKey;
    if recs != [] {
      UnmatchedFile(key, recs[1..], q);
      HourMonotone(q.from, recs[0].ts);
      HourMonotone(recs[0].ts, q.to);
    }
  }

  lemma HourMonotone(a: int, b: int)
    ensures a <= b ==> HourOf(a) <= HourOf(b)
  {
  }

  lemma {:induction false} PruneScan(blob: map<string, string>, files: Files, keys: seq<string>, q: Query)
    requires Holds(blob, files) && forall k :: k in keys ==> k in files
    ensures Scan(files, Select(keys, q), q) == Scan(files, keys, q)
  {
    hide Matches, NormalizeKey, ParseObjectKey, FileText, Chosen, Rows, KeyTells;
    if keys != [] {
      PruneScan(blob, files, keys[1..], q);
      if !Matches(keys[0], q) { UnmatchedFile(keys[0], files[keys[0]], q); }
    }
  }

  lemma NoRows()
    ensures Rows([]) == []
  {
  }

  lemma {:induction false} MergeHeld(blob: map<string, string>, files: Files, keys: seq<string>, q: Query)
    requires Holds(blob, files) && forall k :: k in keys ==> k in files
    ensures MergeRows(blob, keys, q) == Some(Rows(Scan(files, keys, q)))
  {
    hide Holds, RowsAt, Rows, Chosen;
    if keys != [] {
      HeldRows(blob, files, keys[0], q);
      MergeHeld(blob, files, keys[1..], q);
      RowsConcat(Chosen(files[keys[0]], q), Scan(files, keys[1..], q));
    } else {
      NoRows();
    }
  }

  /** The keys that match are the matching archive keys. */
  lemma MatchingAreArchive(blob: map<string, string>, files: Files, q: Query)
    requires Holds(blob, files)
    ensures MatchingKeys(blob, q) == Select(Listing(files.Keys), q)
    ensures forall k :: k in MatchingKeys(blob, q) ==> k in files
  {
    hide Listing, ParseObjectKey, FileText, NormalizeKey;
    var all, own := Listing(blob.Keys), Listing(files.Keys);
    SelectAscending(all, q);
    SelectAscending(own, q);
    forall k ensures k in Elements(Select(all, q)) <==> k in Elements(Select(own, q)) {
      assert k in Elements(all) <==> k in all;
      assert k in Elements(own) <==> k in own;
      if Matches(k, q) { assert ParseObjectKey(k).Some?; }
    }
    AscendingUnique(Select(all, q), Select(own, q));
  }

  /* ---------- pruning, over any store ---------- */

  /** A row that decodes is one of the organization, device and hour that the key names. */
  ghost predicate RowAgrees(key: string, row: Row) {
    DecodeRow(row).Some? ==>
      var rec := DecodeRow(row).value; ParseObjectKey(key) == Some(ParsedKey(rec.org, rec.ident, HourOf(rec.ts)))
  }

  /** An archive object: stored under its own key, readable as CSV, and without a row of another partition.
      It may have no header or several, quoted fields, and rows that do not decode. */
  ghost predicate ObjectAgrees(blob: map<string, string>, key: string) {
    && key in blob && NormalizeKey(key) == Some(key) && ReadCsv(blob[key]).Some?
    && forall i :: 0 <= i < |ReadCsv(blob[key]).value| ==> RowAgrees(key, ReadCsv(blob[key]).value[i])
  }

  ghost predicate Partitioned(blob: map<string, string>) {
    forall k :: k in blob && ParseObjectKey(k).Some? ==> ObjectAgrees(blob, k)
  }

  /** The archive keys among these. */
  function Parsing(keys: seq<string>): (r: seq<string>)
    ensures forall k :: k in r <==> k in keys && ParseObjectKey(k).Some?
  {
    if keys == [] then []
    else if ParseObjectKey(keys[0]).Some? then [keys[0]] + Parsing(keys[1..])
    else Parsing(keys[1..])
  }

  lemma RowPruned(key: string, row: Row, q: Query)
    requires ParseObjectKey(key).Some? && !Matches(key, q) && RowAgrees(key, row)
    ensures KeepRow(row, q) == None
  {
    hide ParseObjectKey, DecodeRow, HourOf;
    if DecodeRow(row).Some? {
      HourMonotone(q.from, DecodeRow(row).value.ts);
      HourMonotone(DecodeRow(row).value.ts, q.to);
    }
  }

  lemma {:induction false} RowsPruned(key: string, rows: seq<Row>, q: Query)
    requires ParseObjectKey(key).Some? && !Matches(key, q) && forall i :: 0 <= i < |rows| ==> RowAgrees(key, rows[i])
    ensures KeepRows(rows, q) == []
  {
    hide ParseObjectKey, Matches, RowAgrees, KeepRow;
    if rows != [] {
      RowPruned(key, rows[0], q);
      RowsPruned(key, rows[1..], q);
    }
  }

  /** An archive object whose key does not match adds nothing to the export. */
  lemma ObjectPruned(blob: map<string, string>, key: string, q: Query)
    requires ParseObjectKey(key).Some? && !Matches(key, q) && ObjectAgrees(blob, key)
    ensures RowsAt(blob, key, q) == Some([])
  {
    hide ParseObjectKey, Matches, RowAgrees, NormalizeKey, ReadCsv, IsHeader, KeepRows;
    RowsPruned(key, DropHeader(ReadCsv(blob[key]).value), q);
  }

  lemma MatchParses(key: string, q: Query)
    requires Matches(key, q)
    ensures ParseObjectKey(key).Some?
  {
    hide ParseObjectKey;
  }

  /** Pruning by key loses nothing: for every store whose archive objects hold no row of another partition,
      and every query, merging only the matching objects gives the same rows in the same order, or the same
      failure, as merging every archive object. */
  lemma {:induction false} PruningAgrees(blob: map<string, string>, keys: seq<string>, q: Query)
    requires Partitioned(blob) && forall k :: k in keys ==> k in blob
    ensures MergeRows(blob, Select(keys, q), q) == MergeRows(blob, Parsing(keys), q)
  {
    hide Matches, ParseObjectKey, ObjectAgrees, RowsAt, Both;
    if keys != [] {
      var k, tail := keys[0], keys[1..];
      PruningAgrees(blob, tail, q);
      if Matches(k, q) {
        MatchParses(k, q);
        assert Select(keys, q) == [k] + Select(tail, q) && Parsing(keys) == [k] + Parsing(tail);
      } else if ParseObjectKey(k).Some? {
        ObjectPruned(blob, k, q);
        assert Parsing(keys) == [k] + Parsing(tail);
        BothAssociates(MergeRows(blob, Parsing(tail), q), None, None);
      }
    }
  }

  /** A row of a held file agrees with the file's key. */
  lemma RecordAgrees(key: string, rec: Record)
    requires KeyTells(key, rec)
    ensures RowAgrees(key, EncodeRow(rec))
  {
    hide ParseObjectKey, DecodeRow, EncodeRow, FourDigitInstant, Trimmed;
    TellsReadable(key, rec);
    RowRoundTrip(rec);
  }

  lemma HeaderUndecoded()
    ensures DecodeRow(HEADER) == None
  {
  }

  /** What runs leave in the store is such a store. */
  lemma HeldArePartitioned(blob: map<string, string>, files: Files)
    requires Holds(blob, files)
    ensures Partitioned(blob)
  {
    hide NormalizeKey, ParseObjectKey, ReadCsv, FileText, RowAgrees, KeyTells;
    forall k | k in blob && ParseObjectKey(k).Some? ensures ObjectAgrees(blob, k) { HeldAgrees(blob, files, k); }
  }

  lemma HeldAgrees(blob: map<string, string>, files: Files, k: string)
    requires Holds(blob, files) && k in files
    ensures ObjectAgrees(blob, k)
  {
    hide NormalizeKey, ParseObjectKey, ReadCsv, FileText, DecodeRow, EncodeRow, HEADER;
    var recs := files[k];
    forall i | 0 <= i < |recs| ensures Trimmed(recs[i]) { AcceptedTrimmed(recs[i]); }
    RecordsRoundTrip(recs);
    HeaderUndecoded();
    var rows := [HEADER] + Rows(recs);
    forall i | 0 <= i < |rows| ensures RowAgrees(k, rows[i]) {
      if i > 0 { RecordAgrees(k, recs[i - 1]); }
    }
  }

  lemma {:induction false} ParsingAscending(keys: seq<string>)
    requires Ascending(keys)
    ensures Ascending(Parsing(keys))
  {
    hide ParseObjectKey, Less;
    if keys != [] {
      ParsingAscending(keys[1..]);
      var r := Parsing(keys[1..]);
      forall j | 0 <= j < |r| ensures Less(keys[0], r[j]) { assert r[j] in keys[1..]; }
    }
  }

  lemma ParsingListed(blob: map<string, string>, files: Files)
    requires forall k :: k in files <==> k in blob && ParseObjectKey(k).Some?
    ensures Parsing(Listing(blob.Keys)) == Listing(files.Keys)
  {
    hide Listing, ParseObjectKey, FileText, NormalizeKey;
    var all, own := Listing(blob.Keys), Listing(files.Keys);
    ParsingAscending(all);
    forall k ensures k in Elements(Parsing(all)) <==> k in Elements(own) {
      assert k in Elements(all) <==> k in all;
      assert k in Elements(own) <==> k in own;
    }
    AscendingUnique(Parsing(all), own);
  }

  lemma HeldKeys(blob: map<string, string>, files: Files)
    requires Holds(blob, files)
    ensures forall k :: k in files <==> k in blob && ParseObjectKey(k).Some?
  {
    hide ParseObjectKey, NormalizeKey, FileText;
  }

  /** For what runs store this says: an export is the rows of the full scan, in the order of the full scan. */
  lemma PruningLosesNothing(blob: map<string, string>, files: Files, q: Query)
    requires Holds(blob, files)
    ensures MergeRows(blob, MatchingKeys(blob, q), q) == Some(Rows(FullScan(files, q)))
  {
    hide Holds, Listing, Parsing, Matches, Partitioned;
    HeldArePartitioned(blob, files);
    HeldKeys(blob, files);
    forall k | k in Listing(blob.Keys) ensures k in blob { assert k in Elements(Listing(blob.Keys)); }
    PruningAgrees(blob, Listing(blob.Keys), q);
    ParsingListed(blob, files);
    ListedKeys(files);
    MergeHeld(blob, files, Listing(files.Keys), q);
  }

  /* ---------- the full scan of any store ---------- */

  function DecodedRecs(rows: seq<Row>): seq<Record> {
    if rows == [] then []
    else if DecodeRow(rows[0]).Some? then [DecodeRow(rows[0]).value] + DecodedRecs(rows[1..])
    else DecodedRecs(rows[1..])
  }

  lemma {:induction false} DecodedFrom(rows: seq<Row>, i: nat) returns (j: nat)
    requires i < |DecodedRecs(rows)|
    ensures j < |rows| && DecodeRow(rows[j]) == Some(DecodedRecs(rows)[i])
  {
    hide DecodeRow;
    if DecodeRow(rows[0]).Some? && i == 0 {
      j := 0;
    } else {
      j := DecodedFrom(rows[1..], if DecodeRow(rows[0]).Some? then i - 1 else i);
      j := j + 1;
    }
  }

  lemma RowsCons(rec: Record, recs: seq<Record>)
    ensures Rows([rec] + recs) == [EncodeRow(rec)] + Rows(recs)
  {
    hide EncodeRow;
  }

  lemma ChosenCons(rec: Record, recs: seq<Record>, q: Query)
    ensures Chosen([rec] + recs, q) == if Wanted(rec, q) then [rec] + Chosen(recs, q) else Chosen(recs, q)
  {
    hide Wanted;
    assert ([rec] + recs)[1..] == recs;
  }

  /** Whether a first row is dropped as the header makes no difference: a header holds no record. */
  lemma HeaderHoldsNothing(rows: seq<Row>)
    ensures DecodedRecs(DropHeader(rows)) == DecodedRecs(rows)
  {
    hide DecodeRow, IsHeader;
    if rows != [] && IsHeader(rows[0]) && DecodeRow(rows[0]).Some? { DecodedIsNotHeader(rows[0]); }
  }

  function RecordsOf(text: string): seq<Record> {
    if ReadCsv(text).Some? then DecodedRecs(DropHeader(ReadCsv(text).value)) else []
  }

  /** The records that the rows of each archive object decode to, by key. */
  ghost function Decoded(blob: map<string, string>): Files {
    map k | k in blob && ParseObjectKey(k).Some? :: RecordsOf(blob[k])
  }

  lemma {:induction false} KeepDecoded(rows: seq<Row>, q: Query)
    ensures KeepRows(rows, q) == Rows(Chosen(DecodedRecs(rows), q))
  {
    if rows != [] {
      hide DecodeRow, EncodeRow, Wanted, Chosen, Rows;
      KeepDecoded(rows[1..], q);
      if DecodeRow(rows[0]).Some? {
        var rec, more := DecodeRow(rows[0]).value, DecodedRecs(rows[1..]);
        ChosenCons(rec, more, q);
        RowsCons(rec, Chosen(more, q));
      }
    } else {
      NoRows();
    }
  }

  /** The object can be got and read. */
  predicate Opens(blob: map<string, string>, key: string) {
    Fetch(blob, key).Found? && ReadCsv(Fetch(blob, key).body).Some?
  }

  /** The records of all its rows that decode. */
  function Body(blob: map<string, string>, key: string): seq<Record> {
    if Opens(blob, key) then DecodedRecs(ReadCsv(Fetch(blob, key).body).value) else []
  }

  /** The records of these objects, one object after the other. */
  function Contents(blob: map<string, string>, keys: seq<string>): seq<Record> {
    if keys == [] then [] else Body(blob, keys[0]) + Contents(blob, keys[1..])
  }

  predicate AllOpen(blob: map<string, string>, keys: seq<string>) { forall k :: k in keys ==> Opens(blob, k) }

  lemma OpenRows(blob: map<string, string>, key: string, q: Query)
    ensures RowsAt(blob, key, q) == if Opens(blob, key) then Some(Rows(Chosen(Body(blob, key), q))) else None
  {
    hide Fetch, ReadCsv, KeepRows, DecodedRecs, Chosen, Rows, IsHeader;
    if Opens(blob, key) {
      var rows := ReadCsv(Fetch(blob, key).body).value;
      KeepDecoded(DropHeader(rows), q);
      HeaderHoldsNothing(rows);
    }
  }

  /** A merge of any objects of any store: it fails if and only if one of them is missing or cannot be read, and else
      gives the wanted records among all that they hold, in their order. */
  lemma {:induction false} MergeExact(blob: map<string, string>, keys: seq<string>, q: Query)
    ensures MergeRows(blob, keys, q)
            == if AllOpen(blob, keys) then Some(Rows(Chosen(Contents(blob, keys), q))) else None
  {
    hide RowsAt, Rows, Chosen, Opens, Body;
    if keys == [] {
      NoRows();
      NoneChosen(q);
    } else {
      OpenRows(blob, keys[0], q);
      MergeExact(blob, keys[1..], q);
      assert forall k :: k in keys <==> k == keys[0] || k in keys[1..];
      var a, b := Body(blob, keys[0]), Contents(blob, keys[1..]);
      ChosenConcat(a, b, q);
      RowsConcat(Chosen(a, q), Chosen(b, q));
    }
  }

  lemma {:induction false} MergeDecoded(blob: map<string, string>, keys: seq<string>, q: Query)
    requires Partitioned(blob) && forall k :: k in keys ==> k in Decoded(blob)
    ensures MergeRows(blob, keys, q) == Some(Rows(Scan(Decoded(blob), keys, q)))
  {
    hide RowsAt, Rows, Chosen, ParseObjectKey, RecordsOf, ObjectAgrees;
    if keys != [] {
      var files := Decoded(blob);
      DecodedRows(blob, keys[0], q);
      MergeDecoded(blob, keys[1..], q);
      RowsConcat(Chosen(files[keys[0]], q), Scan(files, keys[1..], q));
    } else {
      NoRows();
    }
  }

  lemma DecodedRows(blob: map<string, string>, key: string, q: Query)
    requires ObjectAgrees(blob, key)
    ensures RowsAt(blob, key, q) == Some(Rows(Chosen(RecordsOf(blob[key]), q)))
  {
    hide ParseObjectKey, NormalizeKey, RowAgrees, ReadCsv, KeepRows, DecodedRecs, Chosen, Rows, IsHeader;
    KeepDecoded(DropHeader(ReadCsv(blob[key]).value), q);
  }

  /** The records of the files with these keys, file after file. */
  function Gathered(files: Files, keys: seq<string>): seq<Record>
    requires forall k :: k in keys ==> k in files
  {
    if keys == [] then [] else files[keys[0]] + Gathered(files, keys[1..])
  }

  /** The records of all files. */
  ghost function Everything(files: Files): seq<Record> {
    ListedKeys(files);
    Gathered(files, Listing(files.Keys))
  }

  lemma {:induction false} ScanChoice(files: Files, keys: seq<string>, q: Query)
    requires forall k :: k in keys ==> k in files
    ensures Scan(files, keys, q) == Chosen(Gathered(files, keys), q)
  {
    hide Chosen;
    if keys == [] {
      NoneChosen(q);
    } else {
      ScanChoice(files, keys[1..], q);
      ChosenConcat(files[keys[0]], Gathered(files, keys[1..]), q);
    }
  }

  lemma NoneChosen(q: Query)
    ensures Chosen([], q) == []
  {
  }

  lemma {:induction false} ChosenConcat(a: seq<Record>, b: seq<Record>, q: Query)
    ensures Chosen(a + b, q) == Chosen(a, q) + Chosen(b, q)
  {
    hide Wanted, IsNumber, IsUuid;
    if a == [] {
      assert a + b == b;
    } else {
      assert (a + b)[1..] == a[1..] + b;
      ChosenConcat(a[1..], b, q);
    }
  }

  /** The full scan has each record that the query asks for as often as the files have it, and no other. */
  lemma ScanCount(files: Files, q: Query, rec: Record)
    ensures multiset(FullScan(files, q))[rec]
            == if && rec.org == q.org && q.from <= rec.ts <= q.to
                  && (q.deviceIds == [] || (rec.ident != "" && rec.ident in q.deviceIds))
               then multiset(Everything(files))[rec] else 0
  {
    hide Chosen, Scan, Gathered, Listing;
    ListedKeys(files);
    ScanChoice(files, Listing(files.Keys), q);
    ChosenCount(Everything(files), q, rec);
  }

  /** For every partitioned store an export is the rows of the full scan of its records, in that order: each record
      that the query asks for as often as the store has it, and no other. */
  lemma PartitionedScan(blob: map<string, string>, q: Query)
    requires Partitioned(blob)
    ensures MergeRows(blob, MatchingKeys(blob, q), q) == Some(Rows(FullScan(Decoded(blob), q)))
    ensures forall rec ::
              multiset(FullScan(Decoded(blob), q))[rec]
              == if && rec.org == q.org && q.from <= rec.ts <= q.to
                    && (q.deviceIds == [] || (rec.ident != "" && rec.ident in q.deviceIds))
                 then multiset(Everything(Decoded(blob)))[rec] else 0
  {
    DecodedScan(blob, q);
    hide *;
    forall rec
      ensures multiset(FullScan(Decoded(blob), q))[rec]
              == if && rec.org == q.org && q.from <= rec.ts <= q.to
                    && (q.deviceIds == [] || (rec.ident != "" && rec.ident in q.deviceIds))
                 then multiset(Everything(Decoded(blob)))[rec] else 0
    {
      ScanCount(Decoded(blob), q, rec);
    }
  }

  lemma DecodedScan(blob: map<string, string>, q: Query)
    requires Partitioned(blob)
    ensures MergeRows(blob, MatchingKeys(blob, q), q) == Some(Rows(FullScan(Decoded(blob), q)))
  {
    hide Listing, Parsing, Matches, Partitioned, ParseObjectKey, RecordsOf;
    forall k | k in Listing(blob.Keys) ensures k in blob { assert k in Elements(Listing(blob.Keys)); }
    PruningAgrees(blob, Listing(blob.Keys), q);
    ParsingListed(blob, Decoded(blob));
    ListedKeys(Decoded(blob));
    MergeDecoded(blob, Listing(Decoded(blob).Keys), q);
  }

  /** Files whose records are named by their keys and read back from their rows. */
  ghost predicate FilesNamed(files: Files) {
    forall k, i :: k in files && 0 <= i < |files[k]| ==> KeyNames(k, files[k][i]) && Readable(files[k][i])
  }

  lemma DecodedTrimmed(row: Row)
    requires DecodeRow(row).Some?
    ensures var s := DecodeRow(row).value.ident; s != "" && !IsSpace(s[0]) && !IsSpace(s[|s| - 1])
  {
    hide ParseInstant, IsNumber, IsUuid, IsSpace;
  }

  lemma ParsedLine(key: string)
    requires ParseObjectKey(key).Some?
    ensures '\n' !in ParseObjectKey(key).value.ident
  {
    MatchKeyUnique(key, MatchKey(key).value);
  }

  lemma DecodedNamed(blob: map<string, string>)
    requires Partitioned(blob)
    ensures FilesNamed(Decoded(blob))
  {
    hide ParseObjectKey, Readable, KeyNames, NormalizeKey, DecodeRow, ReadCsv, DecodedRecs, IsHeader;
    var files := Decoded(blob);
    forall k, i | k in files && 0 <= i < |files[k]| ensures KeyNames(k, files[k][i]) && Readable(files[k][i]) {
      assert ObjectAgrees(blob, k);
      var rows := DropHeader(ReadCsv(blob[k]).value);
      var j := DecodedFrom(rows, i);
      RowNamed(k, rows[j]);
    }
  }

  lemma RowNamed(key: string, row: Row)
    requires ParseObjectKey(key).Some? && RowAgrees(key, row) && DecodeRow(row).Some?
    ensures KeyNames(key, DecodeRow(row).value) && Readable(DecodeRow(row).value)
  {
    hide ParseObjectKey, DecodeRow, FourDigitInstant, IsSpace;
    KeyYear(key, DecodeRow(row).value);
    DecodedTrimmed(row);
    ParsedLine(key);
  }

  /* ---------- the order of the rows ---------- */

  function DeviceFolder(org: string, ident: string): string { Join(["org", org, "device", ident], '/') + "/" }

  function Stamp(h: int): string { "date=" + DateText(DayOfHour(h)) + "/hour=" + HourText(h) + "/" }

  /** A parsed key is its device folder, its hour stamp and a file name. */
  lemma KeyParts(key: string) returns (file: string)
    requires ParseObjectKey(key).Some?
    ensures var p := ParseObjectKey(key).value; key == DeviceFolder(p.org, p.ident) + (Stamp(p.hour) + file)
    ensures var p := ParseObjectKey(key).value; '/' !in p.org && FourDigitHour(p.hour)
  {
    var f := MatchKey(key).value;
    MatchKeyUnique(key, f);
    ParsedYear(key);
    file := f.file;
    FieldTexts(f);
    KeyLayout(f.org, f.ident, f.date, f.hour, f.file);
  }

  lemma FieldTexts(f: KeyFields)
    requires DateShape(f.date) && |f.hour| == 2 && AllDigits(f.hour) && ParsedFields(f).Some?
    ensures var h := ParsedFields(f).value.hour; DateText(DayOfHour(h)) == f.date && HourText(h) == f.hour
  {
    hide DateText, ParseDate, Numeral, Value, Pow10, FourDigitYear, DateShape;
    DateTextRoundTrip(f.date);
    ValueNumeral(f.hour);
    HourIndex(ParseDate(f.date).value, Value(f.hour));
  }

  lemma HourIndex(day: int, v: int)
    requires 0 <= v < 24
    ensures DayOfHour(24 * day + v) == day && (24 * day + v) % 24 == v
  {
  }

  lemma KeyLayout(org: string, ident: string, date: string, hour: string, file: string)
    ensures Join(["org", org, "device", ident, "date=" + date, "hour=" + hour, file], '/')
            == Join(["org", org, "device", ident], '/') + "/" + ("date=" + date + "/hour=" + hour + "/" + file)
  {
    hide Join;
    var a, b := ["org", org, "device", ident], ["date=" + date, "hour=" + hour, file];
    JoinConcat(a, b, '/');
    assert a + b == ["org", org, "device", ident, "date=" + date, "hour=" + hour, file];
    JoinThree("date=" + date, "hour=" + hour, file);
    assert "date=" + date + "/" + ("hour=" + hour) + "/" + file == "date=" + date + "/hour=" + hour + "/" + file;
  }

  lemma JoinThree(a: string, b: string, c: string)
    ensures Join([a, b, c], '/') == a + "/" + b + "/" + c
  {
    assert Join([b, c], '/') == b + "/" + c;
  }

  /** A key inside a device's folder is a key of that device. */
  lemma FolderTells(key: string, org: string, ident: string)
    requires ParseObjectKey(key).Some? && StartsWith(key, DeviceFolder(org, ident))
    requires '/' !in org && '/' !in ident && '/' !in ParseObjectKey(key).value.ident
    ensures ParseObjectKey(key).value.org == org && ParseObjectKey(key).value.ident == ident
  {
    hide Join, Split;
    var f := MatchKey(key).value;
    MatchKeyUnique(key, f);
    SlashFreeDate(f.date);
    SlashFreeHour(f.hour);
    KeySegments(f.org, f.ident, "date=" + f.date, "hour=" + f.hour, f.file);
    SplitPlain(f.ident, '/');
    var a := ["org", org, "device", ident];
    var rest := key[|DeviceFolder(org, ident)|..];
    assert key == Join(a, '/') + ['/'] + rest;
    SplitConcat(Join(a, '/'), rest, '/');
    SplitJoin(a, '/');
    var p := Split(key, '/');
    assert p[1] == org && p[3] == ident;
    assert p[1] == f.org && p[3] == f.ident;
  }

  predicate PlainDevice(key: string) {
    ParseObjectKey(key).Some? && '/' !in ParseObjectKey(key).value.ident
  }

  /** Between two keys of one device lie only keys of that device. */
  lemma DeviceInterval(a: string, b: string, c: string)
    requires PlainDevice(a) && PlainDevice(b) && PlainDevice(c) && Less(a, b) && Less(b, c)
    requires ParseObjectKey(a).value.org == ParseObjectKey(c).value.org
    requires ParseObjectKey(a).value.ident == ParseObjectKey(c).value.ident
    ensures ParseObjectKey(b).value.org == ParseObjectKey(a).value.org
    ensures ParseObjectKey(b).value.ident == ParseObjectKey(a).value.ident
  {
    hide ParseObjectKey, DeviceFolder, Stamp, Less;
    var p := ParseObjectKey(a).value;
    var x := KeyParts(a);
    var y := KeyParts(c);
    PrefixInterval(DeviceFolder(p.org, p.ident), a, b, c);
    FolderTells(b, p.org, p.ident);
  }

  lemma StampOrder(g: int, h: int, x: string, y: string)
    requires g < h && FourDigitHour(g) && FourDigitHour(h)
    ensures Less(Stamp(g) + x, Stamp(h) + y)
  {
    hide DateText, Numeral, Less, FourDigitYear;
    var d, e := DateText(DayOfHour(g)), DateText(DayOfHour(h));
    var u, v := HourText(g) + ("/" + x), HourText(h) + ("/" + y);
    DateWidth(DayOfHour(g));
    DateWidth(DayOfHour(h));
    if DayOfHour(g) < DayOfHour(h) {
      DateTextOrder(DayOfHour(g), DayOfHour(h));
      LessHead(d, e, "/hour=" + u, "/hour=" + v);
    } else {
      HundredHours();
      NumeralTail(g % 24, h % 24, 2, "/" + x, "/" + y);
      LessPrefix("/hour=", u, v);
      LessPrefix(d, "/hour=" + u, "/hour=" + v);
    }
    LessPrefix("date=", d + ("/hour=" + u), e + ("/hour=" + v));
    StampLayout(d, HourText(g), x);
    StampLayout(e, HourText(h), y);
  }

  lemma HundredHours()
    ensures Pow10(2) == 100
  {
  }

  lemma StampLayout(date: string, hour: string, x: string)
    ensures "date=" + date + "/hour=" + hour + "/" + x == "date=" + (date + ("/hour=" + (hour + ("/" + x))))
  {
  }

  /** On keys of one device the text order follows the hours. */
  lemma HourOrder(a: string, b: string)
    requires ParseObjectKey(a).Some? && ParseObjectKey(b).Some? && Less(a, b)
    requires ParseObjectKey(a).value.org == ParseObjectKey(b).value.org
    requires ParseObjectKey(a).value.ident == ParseObjectKey(b).value.ident
    ensures ParseObjectKey(a).value.hour <= ParseObjectKey(b).value.hour
  {
    hide ParseObjectKey, DeviceFolder, Stamp, Less, FourDigitYear;
    var p, q := ParseObjectKey(a).value, ParseObjectKey(b).value;
    var x := KeyParts(a);
    var y := KeyParts(b);
    if q.hour < p.hour {
      StampOrder(q.hour, p.hour, y, x);
      LessPrefix(DeviceFolder(p.org, p.ident), Stamp(q.hour) + y, Stamp(p.hour) + x);
      LessTotal(a, b);
    }
  }

  /** The position in keys of the object that record i of a scan comes from. */
  function Source(files: Files, keys: seq<string>, q: Query, i: nat): (j: nat)
    requires (forall k :: k in keys ==> k in files) && i < |Scan(files, keys, q)|
    ensures j < |keys| && Scan(files, keys, q)[i] in files[keys[j]]
  {
    var n := |Chosen(files[keys[0]], q)|;
    if i < n then 0 else 1 + Source(files, keys[1..], q, i - n)
  }

  lemma {:induction false} SourceMonotone(files: Files, keys: seq<string>, q: Query, a: nat, b: nat)
    requires (forall k :: k in keys ==> k in files) && a <= b < |Scan(files, keys, q)|
    ensures Source(files, keys, q, a) <= Source(files, keys, q, b)
  {
    hide Chosen, IsNumber, IsUuid;
    var n := |Chosen(files[keys[0]], q)|;
    if a >= n { SourceMonotone(files, keys[1..], q, a - n, b - n); }
  }

  predicate SlashFreeDevices(files: Files) {
    forall k, i :: k in files && 0 <= i < |files[k]| ==> '/' !in files[k][i].ident
  }

  lemma SourceTells(files: Files, keys: seq<string>, q: Query, i: nat)
    requires FilesNamed(files) && SlashFreeDevices(files)
    requires (forall k :: k in keys ==> k in files) && i < |Scan(files, keys, q)|
    ensures KeyNames(keys[Source(files, keys, q, i)], Scan(files, keys, q)[i])
    ensures PlainDevice(keys[Source(files, keys, q, i)])
  {
    hide Scan, Source, ParseObjectKey, Readable;
  }

  /** In the full scan each device's records form one block, and inside it the hours never decrease. */
  lemma ScanOrder(files: Files, q: Query, a: nat, b: nat, c: nat)
    requires FilesNamed(files) && SlashFreeDevices(files) && a <= b <= c < |FullScan(files, q)|
    ensures var r := FullScan(files, q);
            && (r[a].org == r[c].org && r[a].ident == r[c].ident ==> r[b].org == r[a].org && r[b].ident == r[a].ident)
            && (r[a].org == r[b].org && r[a].ident == r[b].ident ==> HourOf(r[a].ts) <= HourOf(r[b].ts))
  {
    hide Scan, Source, Listing, FilesNamed, SlashFreeDevices, ParseObjectKey, Less, PlainDevice, IsNumber, IsUuid;
    ListedKeys(files);
    var keys := Listing(files.Keys);
    var i, j, k := Source(files, keys, q, a), Source(files, keys, q, b), Source(files, keys, q, c);
    SourceMonotone(files, keys, q, a, b);
    SourceMonotone(files, keys, q, b, c);
    SourceTells(files, keys, q, a);
    SourceTells(files, keys, q, b);
    SourceTells(files, keys, q, c);
    var r := FullScan(files, q);
    if i < j && r[a].org == r[b].org && r[a].ident == r[b].ident { HourOrder(keys[i], keys[j]); }
    if i < j < k && r[a].org == r[c].org && r[a].ident == r[c].ident { DeviceInterval(keys[i], keys[j], keys[k]); }
  }

  /** In an export of any partitioned store each device's rows form one block, and inside it the hours never
      decrease, whatever order the objects were written in; device texts with a slash are set aside, and ingest
      accepts none. */
  lemma ExportOrder(blob: map<string, string>, q: Query, a: nat, b: nat, c: nat)
    requires Partitioned(blob) && SlashFreeDevices(Decoded(blob)) && a <= b <= c < |FullScan(Decoded(blob), q)|
    ensures var r := FullScan(Decoded(blob), q);
            && MergeRows(blob, MatchingKeys(blob, q), q) == Some(Rows(r))
            && (r[a].org == r[c].org && r[a].ident == r[c].ident ==> r[b].org == r[a].org && r[b].ident == r[a].ident)
            && (r[a].org == r[b].org && r[a].ident == r[b].ident ==> HourOf(r[a].ts) <= HourOf(r[b].ts))
  {
    hide *;
    PartitionedScan(blob, q);
    DecodedNamed(blob);
    ScanOrder(Decoded(blob), q, a, b, c);
  }

  /* ---------- an export is a fixed point ---------- */

  lemma {:induction false} ChosenAll(recs: seq<Record>, q: Query)
    requires forall i :: 0 <= i < |recs| ==> Wanted(recs[i], q)
    ensures Chosen(recs, q) == recs
  {
    if recs != [] { ChosenAll(recs[1..], q); }
  }

  lemma {:induction false} ScanWanted(files: Files, keys: seq<string>, q: Query)
    requires FilesNamed(files) && forall k :: k in keys ==> k in files
    ensures forall i :: 0 <= i < |Scan(files, keys, q)| ==>
              Wanted(Scan(files, keys, q)[i], q) && Readable(Scan(files, keys, q)[i])
  {
    hide Wanted, Readable, KeyNames;
    if keys != [] { ScanWanted(files, keys[1..], q); }
  }

  /** Merging an export file with the query that made it reproduces the file, with its one header, whatever
      quotes, commas and carriage returns the device texts hold. */
  lemma ExportFixedPoint(blob: map<string, string>, q: Query, other: map<string, string>, key: string)
    requires Partitioned(blob)
    requires MergedText(MergeRows(blob, MatchingKeys(blob, q), q)).Some?
    requires Fetch(other, key) == Found(MergedText(MergeRows(blob, MatchingKeys(blob, q), q)).value)
    ensures MergedText(MergeRows(other, [key], q)) == MergedText(MergeRows(blob, MatchingKeys(blob, q), q))
  {
    hide Partitioned, Decoded, Listing, Scan, Chosen, Rows, ObjectRows, FileText, Fetch, MatchingKeys, FilesNamed,
      Readable;
    PartitionedScan(blob, q);
    DecodedNamed(blob);
    var files := Decoded(blob);
    ListedKeys(files);
    var recs := FullScan(files, q);
    ScanWanted(files, Listing(files.Keys), q);
    FileRows(recs, q);
    ChosenAll(recs, q);
    var got := RowsAt(other, key, q);
    BothAssociates(got, got, got);
  }
}
