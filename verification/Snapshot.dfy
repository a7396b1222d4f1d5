/** An export is a snapshot: a succeeded job's object is the full-scan answer over the archive as it stood
    when the job's keys were listed, however the archive writer and other workers go on meanwhile. */
module Snapshot {
  import opened Text
  import opened Telemetry
  import opened Keys
  import opened Paths
  import opened Storage
  import opened Csv
  import opened Merge
  import opened Exports
  import opened Buffer
  import opened Archive
  import opened Service

  /** The archive objects a job's listing saw. */
  function Seen(s: World, id: Uuid): Files
    requires id in s.jobs && s.jobs[id].listed <= |s.archive.puts|
  {
    FilesOf(s.archive.puts[..s.jobs[id].listed])
  }

  predicate Listed(s: World, id: Uuid) { id in s.jobs && s.jobs[id].listed <= |s.archive.puts| }

  /** The merge has produced the scan of the objects read so far, of those the listing saw. */
  ghost predicate MergeOk(s: World, p: Phase)
    requires p.Merging?
  {
    Listed(s, p.job) &&
    var f, q := Seen(s, p.job), s.jobs[p.job].query;
    && p.keys == Select(Listing(f.Keys), q)
    && (forall k :: k in p.keys ==> k in f)
    && p.pos <= |p.keys|
    && p.rows == Rows(Scan(f, p.keys[..p.pos], q))
  }

  /** The job's export object is the full-scan answer over the objects its listing saw. */
  ghost predicate ExportOk(s: World, id: Uuid, prefix: string) {
    Listed(s, id) &&
    var q := s.jobs[id].query;
    var k := StoredKey(prefix, id, q);
    && k.Some? && k.value in s.archive.blob
    && s.archive.blob[k.value] == FileText(Rows(FullScan(Seen(s, id), q)))
  }

  ghost predicate PhaseOk(s: World, p: Phase, prefix: string) {
    (p.Merging? ==> MergeOk(s, p)) && (p.Written? ==> ExportOk(s, p.job, prefix))
  }

  predicate KeyOk(s: World, id: Uuid, prefix: string) {
    id in s.jobs && s.jobs[id].key == ExportObjectKey(prefix, s.jobs[id].query.org, id)
  }

  ghost predicate WorkersOk(s: World, prefix: string) {
    forall w :: w in s.workers ==> PhaseOk(s, s.workers[w], prefix)
  }

  ghost predicate JobsOk(s: World, prefix: string) {
    forall id :: id in s.jobs && s.jobs[id].status == Succeeded ==> ExportOk(s, id, prefix) && KeyOk(s, id, prefix)
  }

  ghost predicate Consistent(s: World, prefix: string) {
    Archive.Inv(s.archive) && Protocol(s) && WorkersOk(s, prefix) && JobsOk(s, prefix)
  }

  predicate SameJob(s: World, t: World, id: Uuid) {
    id in s.jobs && id in t.jobs && t.jobs[id].query == s.jobs[id].query && t.jobs[id].listed == s.jobs[id].listed
  }

  /* ---------- files seen earlier ---------- */

  /** Objects are only ever added to the archive, never replaced. */
  lemma {:induction false} FilesGrow(puts: seq<Put>, n: nat)
    requires FreshKeys(puts) && n <= |puts|
    ensures FreshKeys(puts[..n])
    ensures forall k :: k in FilesOf(puts[..n]) ==> k in FilesOf(puts) && FilesOf(puts)[k] == FilesOf(puts[..n])[k]
    decreases |puts|
  {
    hide FileKey, ParseObjectKey, Recs;
    if n < |puts| {
      var front := puts[..|puts| - 1];
      FilesGrow(front, n);
      assert front[..n] == puts[..n];
    } else {
      assert puts[..n] == puts;
    }
  }

  lemma EarlierHeld(blob: map<string, string>, puts: seq<Put>, n: nat) returns (part: map<string, string>)
    requires Holds(blob, FilesOf(puts)) && FreshKeys(puts) && n <= |puts|
    ensures Holds(part, FilesOf(puts[..n]))
  {
    hide FileText, Rows, NormalizeKey, ParseObjectKey, FilesOf, FreshKeys;
    FilesGrow(puts, n);
    var f := FilesOf(puts[..n]);
    part := map k | k in f :: blob[k];
  }

  lemma {:induction false} ScanNext(f: Files, keys: seq<string>, i: nat, q: Query)
    requires (forall k :: k in keys ==> k in f) && i < |keys|
    ensures Scan(f, keys[..i + 1], q) == Scan(f, keys[..i], q) + Chosen(f[keys[i]], q)
  {
    hide Chosen, IsNumber, IsUuid;
    if i == 0 {
      assert keys[..1] == [keys[0]] && keys[..0] == [];
      assert Scan(f, [keys[0]], q) == Chosen(f[keys[0]], q) + Scan(f, [], q);
    } else {
      ScanNext(f, keys[1..], i - 1, q);
      assert keys[..i + 1][1..] == keys[1..][..i] && keys[..i][1..] == keys[1..][..i - 1];
    }
  }

  /* ---------- the steps ---------- */

  /** Where a job's own worker has put nothing yet or something, the rest of the world sees the archive
      grow and one object appear under a key that is not the export's. */
  lemma ExportKept(s: World, t: World, id: Uuid, prefix: string)
    requires ExportOk(s, id, prefix) && SameJob(s, t, id)
    requires s.archive.puts <= t.archive.puts
    requires var k := StoredKey(prefix, id, s.jobs[id].query).value;
             k in t.archive.blob && t.archive.blob[k] == s.archive.blob[k]
    ensures ExportOk(t, id, prefix)
  {
    hide StoredKey, FileText, Rows, FullScan, FilesOf;
    assert t.archive.puts[..s.jobs[id].listed] == s.archive.puts[..s.jobs[id].listed];
  }

  lemma MergeKept(s: World, t: World, p: Phase)
    requires p.Merging? && MergeOk(s, p) && SameJob(s, t, p.job)
    requires s.archive.puts <= t.archive.puts
    ensures MergeOk(t, p)
  {
    hide Rows, Scan, FilesOf, Select, Listing;
    assert t.archive.puts[..s.jobs[p.job].listed] == s.archive.puts[..s.jobs[p.job].listed];
  }

  /** No action of the archive writer touches an export object. */
  lemma WriteApart(s: Archive.State, a: Archive.Action, maxRows: nat, prefix: string, org: Uuid, id: Uuid)
    requires Archive.Inv(s) && Archive.Enabled(s, a) && !a.Foreign?
    requires var k := NormalizeKey(ExportObjectKey(prefix, org, id)); k.Some? && k.value in s.blob
    ensures var t, k := Archive.Apply(s, a, maxRows), NormalizeKey(ExportObjectKey(prefix, org, id)).value;
            k in t.blob && t.blob[k] == s.blob[k] && s.puts <= t.puts
  {
    hide NormalizeKey, ExportObjectKey, FileText, Rows, PartitionKey, ParseObjectKey, Conserved, Holds, PutsOk,
      FreshKeys, PartsOk, Appended, Overflow, FileKey;
    if a.PutOk? || (a.PutErr? && a.stored) {
      var f := s.flights[a.id];
      ExportKeyApart(prefix, org, id, f.items[0].rec, a.id);
    }
  }

  lemma WriteStep(s: World, a: Archive.Action, prefix: string, maxRows: nat)
    requires Consistent(s, prefix) && Can(s, Write(a), prefix)
    ensures Consistent(Do(s, Write(a), prefix, maxRows), prefix)
  {
    hide Archive.Inv, Archive.Apply, Archive.Enabled, Protocol, MergeOk, ExportOk, NormalizeKey, ExportObjectKey;
    var t := Do(s, Write(a), prefix, maxRows);
    ProtocolStep(s, Write(a), prefix, maxRows);
    StepInv(s.archive, a, maxRows);
    ArchiveGrows(s.archive, a, maxRows);
    forall id | ExportOk(s, id, prefix) ensures ExportOk(t, id, prefix) { WriteExport(s, a, prefix, maxRows, id); }
    forall w | w in t.workers ensures PhaseOk(t, t.workers[w], prefix) {
      assert PhaseOk(s, s.workers[w], prefix);
      if t.workers[w].Merging? {
        assert Listed(s, t.workers[w].job) by { MergeListed(s, t.workers[w]); }
        MergeKept(s, t, t.workers[w]);
      }
    }
  }

  lemma MergeListed(s: World, p: Phase)
    requires p.Merging? && MergeOk(s, p)
    ensures Listed(s, p.job)
  {
  }

  lemma ArchiveGrows(s: Archive.State, a: Archive.Action, maxRows: nat)
    requires Archive.Enabled(s, a)
    ensures s.puts <= Archive.Apply(s, a, maxRows).puts
  {
    hide FileText, Rows, FileKey, Appended, Overflow, PartitionKey;
  }

  lemma WriteExport(s: World, a: Archive.Action, prefix: string, maxRows: nat, id: Uuid)
    requires Archive.Inv(s.archive) && Archive.Enabled(s.archive, a) && !a.Foreign? && ExportOk(s, id, prefix)
    ensures ExportOk(s.(archive := Archive.Apply(s.archive, a, maxRows)), id, prefix)
  {
    hide Archive.Inv, Archive.Apply, Archive.Enabled, FileText, Rows, FullScan, FilesOf, NormalizeKey, ExportObjectKey;
    WriteApart(s.archive, a, maxRows, prefix, s.jobs[id].query.org, id);
    ExportKept(s, s.(archive := Archive.Apply(s.archive, a, maxRows)), id, prefix);
  }

  /** Storing at a job's export key keeps the archive and every other job's export. */
  lemma StoreStep(s: World, id: Uuid, text: string, prefix: string)
    requires Archive.Inv(s.archive) && id in s.jobs && StoredKey(prefix, id, s.jobs[id].query).Some?
    ensures var t := s.(archive := Stores(s.archive, StoredKey(prefix, id, s.jobs[id].query).value, text));
            && Archive.Inv(t.archive)
            && (forall j :: j != id && ExportOk(s, j, prefix) ==> ExportOk(t, j, prefix))
            && (forall p: Phase :: p.Merging? && MergeOk(s, p) ==> MergeOk(t, p))
  {
    hide Archive.Inv, NormalizeKey, ExportObjectKey, MergeOk, ExportOk, Archive.Apply;
    var q := s.jobs[id].query;
    var k := StoredKey(prefix, id, q).value;
    var t := s.(archive := Stores(s.archive, k, text));
    ExportForeign(prefix, q.org, id);
    StepInv(s.archive, Archive.Foreign(k, text), 0);
    ForeignStores(s.archive, k, text);
    forall j | j != id && ExportOk(s, j, prefix) ensures ExportOk(t, j, prefix) { OtherExport(s, id, j, text, prefix); }
    forall p: Phase | p.Merging? && MergeOk(s, p) ensures MergeOk(t, p) { MergeListed(s, p); MergeKept(s, t, p); }
  }

  lemma ForeignStores(a: Archive.State, k: string, text: string)
    requires ForeignKey(k)
    ensures Archive.Apply(a, Archive.Foreign(k, text), 0) == Stores(a, k, text)
  {
    hide ForeignKey;
  }

  lemma OtherExport(s: World, id: Uuid, j: Uuid, text: string, prefix: string)
    requires id in s.jobs && StoredKey(prefix, id, s.jobs[id].query).Some? && j != id && ExportOk(s, j, prefix)
    ensures ExportOk(s.(archive := Stores(s.archive, StoredKey(prefix, id, s.jobs[id].query).value, text)), j, prefix)
  {
    hide NormalizeKey, ExportObjectKey, FileText, Rows, FullScan, FilesOf;
    var k, l := StoredKey(prefix, id, s.jobs[id].query), StoredKey(prefix, j, s.jobs[j].query);
    if k == l { ExportKeyInjective(prefix, s.jobs[id].query.org, id, s.jobs[j].query.org, j); }
    ExportKept(s, s.(archive := Stores(s.archive, k.value, text)), j, prefix);
  }

  lemma ExportForeign(prefix: string, org: Uuid, job: Uuid)
    requires NormalizeKey(ExportObjectKey(prefix, org, job)).Some?
    ensures ForeignKey(NormalizeKey(ExportObjectKey(prefix, org, job)).value)
  {
    hide NormalizeKey, ExportObjectKey, Split;
    ExportKeySegments(prefix, org, job);
  }

  /** Steps that leave the archive alone and change only the status and history of one job. */
  lemma QuietKept(s: World, t: World, prefix: string)
    requires s.archive == t.archive
    ensures forall id :: ExportOk(s, id, prefix) && SameJob(s, t, id) ==> ExportOk(t, id, prefix)
    ensures forall p: Phase :: p.Merging? && MergeOk(s, p) && SameJob(s, t, p.job) ==> MergeOk(t, p)
  {
    hide NormalizeKey, ExportObjectKey, FileText, Rows, FullScan, FilesOf, Select, Listing, Scan;
  }

  /** Claiming, creating and finishing. */
  lemma TableStep(s: World, e: Event, prefix: string, maxRows: nat)
    requires Consistent(s, prefix) && Can(s, e, prefix) && (e.Create? || e.Claim? || e.FinishOk? || e.FinishFailed?)
    ensures Consistent(Do(s, e, prefix, maxRows), prefix)
  {
    hide Archive.Inv, Protocol, MergeOk, ExportOk, ExportObjectKey, IsNumber, IsUuid;
    var t := Do(s, e, prefix, maxRows);
    ProtocolStep(s, e, prefix, maxRows);
    QuietKept(s, t, prefix);
    forall p: Phase | p.Merging? && MergeOk(s, p) ensures Listed(s, p.job) { MergeListed(s, p); }
    forall id | ExportOk(s, id, prefix) ensures Listed(s, id) { ExportListed(s, id, prefix); }
    forall w | w in t.workers ensures PhaseOk(t, t.workers[w], prefix) {
      if w in s.workers { assert PhaseOk(s, s.workers[w], prefix); }
    }
    if e.FinishOk? { assert PhaseOk(s, s.workers[e.w], prefix); }
  }

  lemma ExportListed(s: World, id: Uuid, prefix: string)
    requires ExportOk(s, id, prefix)
    ensures Listed(s, id)
  {
  }

  /** What a listing answers. */
  lemma ListedNow(s: World, w: nat, prefix: string, maxRows: nat)
    requires Archive.Inv(s.archive) && Can(s, Event.List(w), prefix)
    ensures var t := Do(s, Event.List(w), prefix, maxRows); MergeOk(t, t.workers[w])
  {
    hide Conserved, PartsOk, FlightsOk, PutsOk, FreshKeys, Holds, FilesOf, Select, Listing, Rows, MatchingKeys;
    var id := PhaseOf(s, w).job;
    var puts := s.archive.puts;
    assert puts[..|puts|] == puts;
    MatchingAreArchive(s.archive.blob, FilesOf(puts), s.jobs[id].query);
    NoRows();
  }

  /** A worker's own step keeps the other workers' phases and the other jobs' exports. */
  lemma ListStep(s: World, w: nat, prefix: string, maxRows: nat)
    requires Consistent(s, prefix) && Can(s, Event.List(w), prefix)
    ensures Consistent(Do(s, Event.List(w), prefix, maxRows), prefix)
  {
    hide Archive.Inv, MergeOk, ExportOk, ExportObjectKey, MatchingKeys;
    var e := Event.List(w);
    var t := Do(s, e, prefix, maxRows);
    var id := PhaseOf(s, w).job;
    ProtocolStep(s, e, prefix, maxRows);
    QuietKept(s, t, prefix);
    ListedNow(s, w, prefix, maxRows);
    forall p: Phase | p.Merging? && MergeOk(s, p) ensures Listed(s, p.job) { MergeListed(s, p); }
    forall j | ExportOk(s, j, prefix) ensures Listed(s, j) { ExportListed(s, j, prefix); }
    assert Held(s, w);
    forall v | v in t.workers ensures PhaseOk(t, t.workers[v], prefix) {
      if v != w { assert PhaseOk(s, s.workers[v], prefix) && Held(s, v); }
    }
  }

  /** One object read. */
  lemma ReadNow(s: World, w: nat, prefix: string, maxRows: nat)
    requires Archive.Inv(s.archive) && Can(s, Event.Read(w), prefix) && MergeOk(s, PhaseOf(s, w))
    ensures var t := Do(s, Event.Read(w), prefix, maxRows); MergeOk(t, t.workers[w])
  {
    hide Conserved, PartsOk, FlightsOk, PutsOk, FreshKeys, Holds, FilesOf, Select, Listing, Rows, RowsAt, Scan, Chosen;
    var p := PhaseOf(s, w);
    var f, q, puts := Seen(s, p.job), s.jobs[p.job].query, s.archive.puts;
    var key := p.keys[p.pos];
    FilesGrow(puts, s.jobs[p.job].listed);
    assert key in f;
    HeldRows(s.archive.blob, FilesOf(puts), key, q);
    ScanNext(f, p.keys, p.pos, q);
    RowsConcat(Scan(f, p.keys[..p.pos], q), Chosen(f[key], q));
  }

  lemma ReadStep(s: World, w: nat, prefix: string, maxRows: nat)
    requires Consistent(s, prefix) && Can(s, Event.Read(w), prefix)
    ensures Consistent(Do(s, Event.Read(w), prefix, maxRows), prefix)
  {
    hide Archive.Inv, MergeOk, ExportOk, ExportObjectKey, RowsAt, Protocol;
    var e := Event.Read(w);
    var t := Do(s, e, prefix, maxRows);
    assert PhaseOk(s, s.workers[w], prefix);
    ProtocolStep(s, e, prefix, maxRows);
    QuietKept(s, t, prefix);
    ReadNow(s, w, prefix, maxRows);
    forall p: Phase | p.Merging? && MergeOk(s, p) ensures Listed(s, p.job) { MergeListed(s, p); }
    forall j | ExportOk(s, j, prefix) ensures Listed(s, j) { ExportListed(s, j, prefix); }
    forall v | v in t.workers ensures PhaseOk(t, t.workers[v], prefix) {
      if v != w { assert PhaseOk(s, s.workers[v], prefix); }
    }
  }

  /** When every key has been read the rows are the full scan of the objects the listing saw. */
  lemma MergeWhole(s: World, p: Phase)
    requires Archive.Inv(s.archive) && p.Merging? && MergeOk(s, p) && p.pos == |p.keys|
    ensures p.rows == Rows(FullScan(Seen(s, p.job), s.jobs[p.job].query))
  {
    hide Conserved, PartsOk, FlightsOk, PutsOk, FreshKeys, Holds, FilesOf, Select, Listing, Rows, Scan;
    var f, q := Seen(s, p.job), s.jobs[p.job].query;
    var part := EarlierHeld(s.archive.blob, s.archive.puts, s.jobs[p.job].listed);
    ListedKeys(f);
    PruneScan(part, f, Listing(f.Keys), q);
    assert p.keys[..|p.keys|] == p.keys;
  }

  lemma PutNow(s: World, w: nat, prefix: string, maxRows: nat)
    requires Archive.Inv(s.archive) && Can(s, PutExport(w), prefix) && MergeOk(s, PhaseOf(s, w))
    ensures ExportOk(Do(s, PutExport(w), prefix, maxRows), PhaseOf(s, w).job, prefix)
  {
    hide Archive.Inv, Rows, Scan, FullScan, FilesOf, Select, Listing, FileText, NormalizeKey, ExportObjectKey;
    MergeWhole(s, PhaseOf(s, w));
  }

  /** A worker stores something at its own job's key. */
  lemma StoreOwn(s: World, e: Event, prefix: string, maxRows: nat)
    requires Consistent(s, prefix) && Can(s, e, prefix) && (e.PutExport? || e.Abort? || e.Crash?)
    ensures Consistent(Do(s, e, prefix, maxRows), prefix)
  {
    hide Archive.Inv, MergeOk, ExportOk, ExportObjectKey, NormalizeKey, StoredKey, FileText, Stores, NonEmptyRows,
      IsNumber, IsUuid;
    var t := Do(s, e, prefix, maxRows);
    var w := e.w;
    var p := PhaseOf(s, w);
    assert PhaseOk(s, s.workers[w], prefix) && Held(s, w);
    ProtocolStep(s, e, prefix, maxRows);
    var u := s.(archive := t.archive);
    if e.PutExport? {
      StoreStep(s, p.job, FileText(p.rows), prefix);
      PutNow(s, w, prefix, maxRows);
    } else if e.left.Some? {
      StoreStep(s, p.job, e.left.value, prefix);
    }
    QuietKept(u, t, prefix);
    forall q: Phase | q.Merging? && MergeOk(u, q) ensures Listed(u, q.job) { MergeListed(u, q); }
    forall j | ExportOk(u, j, prefix) ensures Listed(u, j) { ExportListed(u, j, prefix); }
    forall v | v in t.workers ensures PhaseOk(t, t.workers[v], prefix) {
      if v != w { assert PhaseOk(s, s.workers[v], prefix) && Held(s, v); }
    }
  }

  lemma ConsistentStep(s: World, e: Event, prefix: string, maxRows: nat)
    requires Consistent(s, prefix) && Can(s, e, prefix)
    ensures Consistent(Do(s, e, prefix, maxRows), prefix)
  {
    hide Consistent, Can, Do;
    match e
    case Write(a) => WriteStep(s, a, prefix, maxRows);
    case List(w) => ListStep(s, w, prefix, maxRows);
    case Read(w) => ReadStep(s, w, prefix, maxRows);
    case PutExport(w) => StoreOwn(s, e, prefix, maxRows);
    case Abort(w, left) => StoreOwn(s, e, prefix, maxRows);
    case Crash(w, left) => StoreOwn(s, e, prefix, maxRows);
    case _ => TableStep(s, e, prefix, maxRows);
  }

  lemma {:induction false} ConsistentRun(events: seq<Event>, prefix: string, maxRows: nat)
    requires Valid(events, prefix, maxRows)
    ensures Consistent(After(events, prefix, maxRows), prefix)
  {
    hide Consistent, Can, Do;
    if events == [] {
      StartConsistent(prefix);
    } else {
      var front := events[..|events| - 1];
      ConsistentRun(front, prefix, maxRows);
      ConsistentStep(After(front, prefix, maxRows), events[|events| - 1], prefix, maxRows);
    }
  }

  lemma StartConsistent(prefix: string)
    ensures Consistent(START, prefix)
  {
    hide Archive.Inv;
    InitInv();
  }

  /* ---------- when the listing happened ---------- */

  /** Event n of the run is the listing of this job, and the archive then had these objects. */
  ghost predicate ListedAt(events: seq<Event>, prefix: string, maxRows: nat, n: nat, id: Uuid, puts: seq<Put>)
    requires Valid(events, prefix, maxRows)
  {
    && n < |events| && events[n].List?
    && (Prefix(events, prefix, maxRows, n);
        var s := After(events[..n], prefix, maxRows);
        PhaseOf(s, events[n].w) == Claimed(id) && s.archive.puts == puts)
  }

  /** The job is past its listing. */
  predicate Past(s: World, id: Uuid) {
    id in s.jobs && (s.jobs[id].status == Succeeded || exists w :: w in s.workers && At(s.workers[w], id))
  }

  predicate At(p: Phase, id: Uuid) { (p.Merging? || p.Written?) && p.job == id }

  lemma PastStep(s: World, e: Event, prefix: string, maxRows: nat, id: Uuid)
    requires Protocol(s) && Can(s, e, prefix) && Past(Do(s, e, prefix, maxRows), id)
    ensures (e.List? && PhaseOf(s, e.w) == Claimed(id)
             && Do(s, e, prefix, maxRows).jobs[id].listed == |s.archive.puts|
             && Do(s, e, prefix, maxRows).archive == s.archive)
         || (Past(s, id) && Do(s, e, prefix, maxRows).jobs[id].listed == s.jobs[id].listed)
  {
    hide Archive.Apply, Archive.Enabled, MatchingKeys, RowsAt, StoredKey, FileText, Stores, ExportObjectKey,
      NonEmptyRows, IsNumber, IsUuid;
    var t := Do(s, e, prefix, maxRows);
    if t.jobs[id].status != Succeeded {
      var w :| w in t.workers && At(t.workers[w], id);
      if w in s.workers { assert At(s.workers[w], id) || e.List?; }
    }
    if e.List? {
      assert Held(s, e.w);
      forall w | w in s.workers && At(s.workers[w], id) ensures Held(s, w) {}
    }
    if e.FinishOk? { assert e.w in s.workers && At(s.workers[e.w], PhaseOf(s, e.w).job); }
  }

  lemma PutsGrow(s: World, e: Event, prefix: string, maxRows: nat)
    requires Can(s, e, prefix)
    ensures s.archive.puts <= Do(s, e, prefix, maxRows).archive.puts
  {
    hide Archive.Apply, Archive.Enabled, MatchingKeys, RowsAt, StoredKey, FileText, ExportObjectKey, NonEmptyRows;
    if e.Write? { ArchiveGrows(s.archive, e.a, maxRows); }
  }

  lemma {:induction false} PastListed(events: seq<Event>, prefix: string, maxRows: nat, id: Uuid) returns (n: nat)
    requires Valid(events, prefix, maxRows) && Past(After(events, prefix, maxRows), id)
    ensures var s := After(events, prefix, maxRows);
            Listed(s, id) && ListedAt(events, prefix, maxRows, n, id, s.archive.puts[..s.jobs[id].listed])
  {
    hide Can, Do, Past, Protocol;
    n := 0;
    if events == [] {
      NothingPast(id);
    } else {
      var front, e := events[..|events| - 1], events[|events| - 1];
      var s := After(front, prefix, maxRows);
      ProtocolRun(front, prefix, maxRows);
      PastStep(s, e, prefix, maxRows, id);
      PastJob(Do(s, e, prefix, maxRows), id);
      PutsGrow(s, e, prefix, maxRows);
      var t := After(events, prefix, maxRows);
      if e.List? && PhaseOf(s, e.w) == Claimed(id) && t.jobs[id].listed == |s.archive.puts| && t.archive == s.archive {
        n := |front|;
        assert t.archive.puts[..|s.archive.puts|] == s.archive.puts;
      } else {
        PastJob(s, id);
        n := PastListed(front, prefix, maxRows, id);
        assert front[..n] == events[..n];
        assert t.archive.puts[..s.jobs[id].listed] == s.archive.puts[..s.jobs[id].listed];
      }
    }
  }

  lemma NothingPast(id: Uuid)
    ensures !Past(START, id)
  {
  }

  lemma PastJob(s: World, id: Uuid)
    requires Past(s, id)
    ensures id in s.jobs
  {
  }

  /** The answer holds the record as often as these objects do, if it can be archived and the query asks for it; else
      not at all. */
  predicate Counted(answer: seq<Record>, puts: seq<Archive.Put>, q: Query, rec: Record) {
    multiset(answer)[rec]
    == if && Exportable(rec) && rec.org == q.org && q.from <= rec.ts <= q.to
          && (q.deviceIds == [] || (rec.ident != "" && rec.ident in q.deviceIds))
       then multiset(Recs(Flat(puts)))[rec] else 0
  }

  lemma AnswerCount(answer: seq<Record>, puts: seq<Archive.Put>, q: Query, rec: Record)
    requires multiset(answer) == multiset(Visible(Flat(puts), q))
    ensures Counted(answer, puts, q, rec)
  {
    hide Visible, Flat, Recs, Exportable, IsNumber, IsUuid;
    VisibleCount(Flat(puts), q, rec);
  }

  /** Export is a snapshot. In every run, whatever the writer and the other workers do during and after
      the merge, the object a succeeded job names is the header and the full scan of the archive as it
      stood when the job listed its keys; those rows are exactly the records stored by then that the
      query wants and that can be exported. */
  lemma ExportIsSnapshot(events: seq<Event>, prefix: string, maxRows: nat, id: Uuid) returns (n: nat)
    requires Valid(events, prefix, maxRows)
    requires id in After(events, prefix, maxRows).jobs && After(events, prefix, maxRows).jobs[id].status == Succeeded
    ensures n < |events| && events[n].List? && Valid(events[..n], prefix, maxRows)
    ensures var early, now := After(events[..n], prefix, maxRows), After(events, prefix, maxRows);
            var q := now.jobs[id].query;
            var answer := FullScan(FilesOf(early.archive.puts), q);
            && PhaseOf(early, events[n].w) == Claimed(id)
            && Fetch(now.archive.blob, now.jobs[id].key) == Found(FileText(Rows(answer)))
            && multiset(answer) == multiset(Visible(Flat(early.archive.puts), q))
    ensures var early, now := After(events[..n], prefix, maxRows), After(events, prefix, maxRows);
            var q := now.jobs[id].query;
            forall rec :: Counted(FullScan(FilesOf(early.archive.puts), q), early.archive.puts, q, rec)
  {
    hide Counted, Can, Do, Protocol, FileText, Rows, FullScan, FilesOf, NormalizeKey, ExportObjectKey, Visible, Flat,
        Conserved,
      Holds, PutsOk, FreshKeys, PartsOk, FlightsOk, After, Valid;
    var now := After(events, prefix, maxRows);
    n := PastListed(events, prefix, maxRows, id);
    Prefix(events, prefix, maxRows, n);
    ConsistentRun(events, prefix, maxRows);
    ConsistentRun(events[..n], prefix, maxRows);
    assert ExportOk(now, id, prefix) && KeyOk(now, id, prefix);
    var a := After(events[..n], prefix, maxRows).archive;
    var q := now.jobs[id].query;
    StoredVisible(a.puts, a.ids, a.flights, a.log, q);
    forall rec ensures Counted(FullScan(FilesOf(a.puts), q), a.puts, q, rec) {
      AnswerCount(FullScan(FilesOf(a.puts), q), a.puts, q, rec);
    }
  }
}
