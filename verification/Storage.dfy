/** The object store: which keys archive files and exports are stored under, and the in-memory
    store that is the reference for the others. */
module Storage {
  import opened Text
  import opened Telemetry
  import opened Calendar
  import opened Keys
  import opened Paths

  /* ---------- archive keys ---------- */

  lemma {:induction false} DotFree(s: string)
    requires '.' !in s
    ensures !HasDotDot(s) && !HasDotDot(s + ".csv")
  {
    if s == "" {
      assert s + ".csv" == ".csv" && ".csv"[1..] == "csv" && "csv"[1..] == "sv" && "sv"[1..] == "v";
    } else {
      assert (s + ".csv")[1..] == s[1..] + ".csv";
      DotFree(s[1..]);
    }
  }

  lemma PlainText(s: string)
    requires s != "" && '.' !in s && '/' !in s && '\\' !in s
    ensures CanonicalSegment(s) && CanonicalSegment(s + ".csv")
  {
    DotFree(s);
  }

  predicate FirmEdges(p: seq<string>) {
    && p != [] && p[0] != "" && !IsSpace(p[0][0])
    && var last := p[|p| - 1]; last != "" && !IsSpace(last[|last| - 1])
  }

  /** Normalising a key given by its slash-free segments. */
  lemma NormalizeSegments(p: seq<string>)
    requires FirmEdges(p) && Kept(p) != [] && Lacks(p, '/') && Lacks(p, '\\')
    ensures NormalizeKey(Join(p, '/')) == if Undotted(p) then Some(Join(Kept(p), '/')) else None
  {
    NormalizeForm(Join(p, '/'));
    SplitJoin(p, '/');
    JoinDots(p);
    JoinLacks(p, '/', '\\');
    JoinFirst(p);
    JoinLast(p);
  }

  lemma JoinFirst(p: seq<string>)
    requires p != [] && p[0] != ""
    ensures Join(p, '/') != "" && Join(p, '/')[0] == p[0][0]
  {
  }

  lemma {:induction false} JoinLast(p: seq<string>)
    requires |p| >= 1 && p[|p| - 1] != ""
    ensures var s := Join(p, '/'); var last := p[|p| - 1]; s != "" && s[|s| - 1] == last[|last| - 1]
  {
    if |p| > 1 { JoinLast(p[1..]); }
  }

  function KeyHead(org: string): seq<string> { ["org", org, "device"] }

  function KeyTail(h: int, id: string): seq<string> {
    ["date=" + DateText(DayOfHour(h)), "hour=" + HourText(h), id + ".csv"]
  }

  lemma HeadCanonical(org: Uuid)
    ensures Canonical(KeyHead(org))
  {
    PlainText("org");
    PlainText(org);
    PlainText("device");
  }

  lemma TailCanonical(h: int, id: Uuid)
    ensures Canonical(KeyTail(h, id))
  {
    var date, hour := DateText(DayOfHour(h)), HourText(h);
    DateTextChars(DayOfHour(h));
    SlashFree(date);
    SlashFree(hour);
    PlainText("date=" + date);
    PlainText("hour=" + hour);
    PlainText(id);
  }

  lemma ArchiveKeyForm(org: string, ident: string, h: int, id: string)
    ensures ObjectKey(Partition(org, ident, h), id) == Join(KeyHead(org) + [ident] + KeyTail(h, id), '/')
  {
    ObjectKeyJoin(org, ident, h, id);
    assert KeyHead(org) + [ident] + KeyTail(h, id)
        == ["org", org, "device", ident, "date=" + DateText(DayOfHour(h)), "hour=" + HourText(h), id + ".csv"];
  }

  lemma CanonicalMeans(p: seq<string>)
    requires Canonical(p)
    ensures PlainSegments(p) && Undotted(p) && Lacks(p, '/') && Lacks(p, '\\')
  {
    assert HasDotDot("..");
  }

  lemma KeptBetween(a: seq<string>, x: string, b: seq<string>)
    requires Canonical(a) && Canonical(b)
    ensures Kept(a + [x] + b) == if x == "" || x == "." then a + b else a + [x] + b
  {
    hide Kept, CanonicalSegment;
    CanonicalMeans(a);
    CanonicalMeans(b);
    KeptConcat(a + [x], b);
    KeptConcat(a, [x]);
    KeptPlain(a);
    KeptPlain(b);
    KeptOne(x);
    assert a + [] == a;
  }

  /** One more segment between canonical ones decides what normalizeKey does. */
  lemma ConcatCanonical(a: seq<string>, x: string, b: seq<string>)
    requires Canonical(a) && Canonical(b) && '/' !in x && '\\' !in x
    ensures Lacks(a + [x] + b, '/') && Lacks(a + [x] + b, '\\')
    ensures Undotted(a + [x] + b) <==> !HasDotDot(x)
  {
    var p := a + [x] + b;
    CanonicalMeans(a);
    CanonicalMeans(b);
    assert p[|a|] == x;
    forall i | 0 <= i < |p|
      ensures '/' !in p[i] && '\\' !in p[i] && (HasDotDot(p[i]) ==> p[i] == x)
    {
      if i < |a| { assert p[i] == a[i]; } else if i > |a| { assert p[i] == b[i - |a| - 1]; }
    }
  }

  lemma NormalizeBetween(a: seq<string>, x: string, b: seq<string>)
    requires Canonical(a) && Canonical(b) && a != [] && b != [] && FirmEdges(a + [x] + b) && '/' !in x && '\\' !in x
    ensures NormalizeKey(Join(a + [x] + b, '/')) ==
            if HasDotDot(x) then None
            else if x == "" || x == "." then Some(Join(a + b, '/'))
            else Some(Join(a + [x] + b, '/'))
  {
    ConcatCanonical(a, x, b);
    KeptBetween(a, x, b);
    NormalizeSegments(a + [x] + b);
  }

  lemma ArchiveEdges(org: Uuid, ident: string, h: int, id: Uuid)
    ensures FirmEdges(KeyHead(org) + [ident] + KeyTail(h, id))
  {
    var p := KeyHead(org) + [ident] + KeyTail(h, id);
    assert p[0] == "org" && p[|p| - 1] == id + ".csv";
    var last := p[|p| - 1];
    assert last[|last| - 1] == 'v';
  }

  /** On an archive key of an accepted device normalizeKey is the identity exactly when the device is
      not `.` and has no `..`; it refuses the key when it has `..`, and drops a device `.` from it. */
  lemma ArchiveKeyNormal(org: Uuid, ident: Identifier, h: int, id: Uuid)
    ensures var key := ObjectKey(Partition(org, ident, h), id);
            NormalizeKey(key) ==
            if HasDotDot(ident) then None
            else if ident == "." then Some(Join(KeyHead(org) + KeyTail(h, id), '/'))
            else Some(key)
  {
    ArchiveKeyForm(org, ident, h, id);
    HeadCanonical(org);
    TailCanonical(h, id);
    ArchiveEdges(org, ident, h, id);
    NormalizeBetween(KeyHead(org), ident, KeyTail(h, id));
  }

  /** The records whose rows can be found again under the key of their partition. */
  predicate Exportable(rec: Record) {
    Accepted(rec) && FourDigitInstant(rec.ts) && rec.ident != "." && !HasDotDot(rec.ident)
  }

  /** In terms of the record: its device is an identifier without double dots and not a single dot, and its time lies
      in the years 0000 to 9999. */
  lemma ExportableExact(rec: Record)
    ensures Exportable(rec) <==>
            && IsIdentifier(rec.ident) && rec.ident != "."
            && (forall i :: 0 <= i < |rec.ident| - 1 ==> rec.ident[i] != '.' || rec.ident[i + 1] != '.')
            && 0 <= rec.ts < 3652425 * 86_400_000_000_000
  {
    hide HasDotDot, IsIdentifier, FourDigitYear;
    DotDotExact(rec.ident);
    FourDigitDays(DayOfHour(HourOf(rec.ts)));
    DaysAndInstants(rec.ts);
  }

  lemma DaysAndInstants(t: int)
    ensures 0 <= DayOfHour(HourOf(t)) < 3652425 <==> 0 <= t < 3652425 * 86_400_000_000_000
  {
  }

  /** Where the archive file of a partition ends up, if the store accepts it. */
  function FileKey(partition: string, id: string): Option<string> { NormalizeKey(ObjectKey(partition, id)) }

  /** An archive file is stored under a key that parses back to the organization, device and hour of
      its rows exactly when the records are exportable; otherwise no stored key parses at all. */
  lemma FileKeyParses(rec: Record, id: Uuid)
    requires Accepted(rec)
    ensures var k := FileKey(PartitionKey(rec), id);
            && (Exportable(rec) ==> k == Some(ObjectKey(PartitionKey(rec), id)))
            && (k.Some? ==> ParseObjectKey(k.value) ==
                            if Exportable(rec) then Some(ParsedKey(rec.org, rec.ident, HourOf(rec.ts))) else None)
            && (Exportable(rec) <==> k.Some? && ParseObjectKey(k.value).Some?)
  {
    hide NormalizeKey, ParseObjectKey, Partition, ObjectKey, Join, KeyHead, KeyTail, FourDigitYear;
    var h := HourOf(rec.ts);
    ArchiveKeyNormal(rec.org, rec.ident, h, id);
    KeyRoundTrip(rec.org, rec.ident, h, id);
    if rec.ident == "." {
      var p := KeyHead(rec.org) + KeyTail(h, id);
      HeadCanonical(rec.org);
      TailCanonical(h, id);
      PartCount(rec.org, h, id);
      ShortKey(p);
    }
  }

  lemma PartCount(org: string, h: int, id: string)
    ensures |KeyHead(org)| == 3 && |KeyTail(h, id)| == 3
  {
  }

  lemma ShortKey(p: seq<string>)
    requires 1 <= |p| < 7 && Canonical(p)
    ensures ParseObjectKey(Join(p, '/')) == None
  {
    CanonicalMeans(p);
    SplitJoin(p, '/');
  }

  /** Different partitions or different file ids never share a stored key. */
  lemma FileKeyInjective(a: Record, i: Uuid, b: Record, j: Uuid)
    requires Accepted(a) && Accepted(b) && FileKey(PartitionKey(a), i) == FileKey(PartitionKey(b), j)
    requires FileKey(PartitionKey(a), i).Some?
    ensures i == j
  {
    hide *;
    FileKeySegments(a, i);
    FileKeySegments(b, j);
    CsvInjective(i, j);
  }

  lemma FileKeyText(rec: Record, id: Uuid) returns (a: seq<string>)
    requires Accepted(rec) && FileKey(PartitionKey(rec), id).Some?
    ensures Lacks(a, '/') && FileKey(PartitionKey(rec), id) == Some(Join(a + KeyTail(HourOf(rec.ts), id), '/'))
  {
    hide NormalizeKey, Join, Partition, ObjectKey;
    var h := HourOf(rec.ts);
    ArchiveKeyNormal(rec.org, rec.ident, h, id);
    ArchiveKeyForm(rec.org, rec.ident, h, id);
    HeadCanonical(rec.org);
    CanonicalMeans(KeyHead(rec.org));
    a := if rec.ident == "." then KeyHead(rec.org) else KeyHead(rec.org) + [rec.ident];
  }

  lemma FileKeySegments(rec: Record, id: Uuid)
    requires Accepted(rec) && FileKey(PartitionKey(rec), id).Some?
    ensures var p := Split(FileKey(PartitionKey(rec), id).value, '/');
            |p| >= 3 && p[|p| - 1] == id + ".csv" && |p[|p| - 2]| == 7
  {
    var a := FileKeyText(rec, id);
    var h := HourOf(rec.ts);
    TailCanonical(h, id);
    SplitTail(a, KeyTail(h, id));
    HourTextFacts(h);
    TailIndices(a, h, id);
  }

  lemma TailIndices(a: seq<string>, h: int, id: string)
    ensures var p := a + KeyTail(h, id);
            |p| >= 3 && p[|p| - 1] == id + ".csv" && p[|p| - 2] == "hour=" + HourText(h)
  {
  }

  lemma SplitTail(a: seq<string>, b: seq<string>)
    requires Lacks(a, '/') && Canonical(b) && |b| >= 1
    ensures Split(Join(a + b, '/'), '/') == a + b
  {
    CanonicalMeans(b);
    SplitJoin(a + b, '/');
  }

  /* ---------- export keys ---------- */

  function ExportTail(org: Uuid, job: Uuid): seq<string> { [org, job + ".csv"] }

  function ExportFolder(prefix: string): string {
    if TrimSlashes(prefix) == "" then "exports" else TrimSlashes(prefix)
  }

  lemma TrimEnds(q: string, tail: string)
    requires tail != "" && !IsSpace(tail[|tail| - 1])
    ensures TrimSpace(q + ['/'] + tail) == TrimLeft(q) + ['/'] + tail
  {
    Assoc(q, ['/'], tail);
    TrimLeftConcat(q, ['/'] + tail);
    Assoc(TrimLeft(q), ['/'], tail);
    LastOf(TrimLeft(q) + ['/'], tail);
  }

  lemma Assoc(a: string, b: string, c: string)
    ensures a + b + c == a + (b + c)
  {
  }

  lemma LastOf(a: string, b: string)
    requires b != ""
    ensures (a + b)[|a + b| - 1] == b[|b| - 1]
  {
  }

  lemma CsvInjective(i: string, j: string)
    requires i + ".csv" == j + ".csv"
    ensures i == j
  {
    assert i == (i + ".csv")[..|i|];
  }

  lemma ExportTrimmed(prefix: string, org: Uuid, job: Uuid)
    ensures TrimSpace(ExportObjectKey(prefix, org, job))
            == TrimLeft(ExportFolder(prefix)) + ['/'] + Join(ExportTail(org, job), '/')
  {
    var q, tail := ExportFolder(prefix), ExportTail(org, job);
    assert [q, org, job + ".csv"] == [q] + tail;
    JoinConcat([q], tail, '/');
    JoinLast(tail);
    assert (job + ".csv")[39] == 'v';
    TrimEnds(q, Join(tail, '/'));
  }

  lemma KeptTail(p: string, org: Uuid, job: Uuid)
    ensures Kept(Split(p + ['/'] + Join(ExportTail(org, job), '/'), '/')) == Kept(Split(p, '/')) + ExportTail(org, job)
  {
    var b := ExportTail(org, job);
    PlainText(org);
    PlainText(job);
    CanonicalMeans(b);
    SplitConcat(p, Join(b, '/'), '/');
    SplitJoin(b, '/');
    KeptConcat(Split(p, '/'), b);
    KeptPlain(b);
  }

  /** A stored export key ends in the organization and the job. */
  lemma ExportKeySegments(prefix: string, org: Uuid, job: Uuid)
    requires NormalizeKey(ExportObjectKey(prefix, org, job)).Some?
    ensures var p := Split(NormalizeKey(ExportObjectKey(prefix, org, job)).value, '/');
            |p| >= 2 && p[|p| - 1] == job + ".csv" && p[|p| - 2] == org
  {
    hide NormalizeKey, Join, Split, Kept, TrimSpace, TrimLeft, ExportObjectKey;
    var key := ExportObjectKey(prefix, org, job);
    ExportTrimmed(prefix, org, job);
    KeptTail(TrimLeft(ExportFolder(prefix)), org, job);
    NormalizeForm(key);
    SplitJoin(KeptSegments(key), '/');
  }

  lemma ExportTailPlain(p: string, org: Uuid, job: Uuid)
    ensures var t := p + ['/'] + Join(ExportTail(org, job), '/');
            Unsafe(t) <==> Unsafe(p)
  {
    var tail := ExportTail(org, job);
    PlainText(org);
    PlainText(job);
    CanonicalMeans(tail);
    JoinDots(tail);
    JoinLacks(tail, '/', '\\');
    DotsConcat(p, '/', Join(tail, '/'));
  }

  /** The store refuses an export key exactly when the configured prefix has a `..` or a backslash. */
  lemma ExportKeyRefused(prefix: string, org: Uuid, job: Uuid)
    ensures NormalizeKey(ExportObjectKey(prefix, org, job)) == None <==> Unsafe(prefix)
  {
    hide NormalizeKey, Join, ExportObjectKey, Split, Kept, TrimSpace, TrimLeft, HasDotDot;
    var p := TrimLeft(ExportFolder(prefix));
    ExportTrimmed(prefix, org, job);
    KeptTail(p, org, job);
    NormalizeForm(ExportObjectKey(prefix, org, job));
    ExportTailPlain(p, org, job);
    TrimLeftKeeps(ExportFolder(prefix));
    FolderUnsafe(prefix);
  }

  lemma FolderUnsafe(prefix: string)
    ensures Unsafe(ExportFolder(prefix)) <==> Unsafe(prefix)
  {
    TrimSlashesKeeps(prefix);
    DotFree("exports");
  }

  lemma {:induction false} TrimLeftKeeps(s: string)
    ensures Unsafe(TrimLeft(s)) <==> Unsafe(s)
  {
    if s != "" && IsSpace(s[0]) {
      assert s == "" + [s[0]] + s[1..];
      DotsConcat("", s[0], s[1..]);
      TrimLeftKeeps(s[1..]);
    }
  }

  lemma {:induction false} TrimSlashesKeeps(s: string)
    ensures Unsafe(TrimSlashes(s)) <==> Unsafe(s)
    decreases |s|
  {
    if s != "" && s[0] == '/' {
      assert s == "" + ['/'] + s[1..];
      DotsConcat("", '/', s[1..]);
      TrimSlashesKeeps(s[1..]);
    } else if s != "" && s[|s| - 1] == '/' {
      assert s == s[..|s| - 1] + ['/'] + "";
      DotsConcat(s[..|s| - 1], '/', "");
      TrimSlashesKeeps(s[..|s| - 1]);
    }
  }

  /** Whatever the export prefix, a stored export key is never read as an archive key, and equals no
      key an archive file is stored under. */
  lemma ExportKeyApart(prefix: string, org: Uuid, job: Uuid, rec: Record, id: Uuid)
    requires NormalizeKey(ExportObjectKey(prefix, org, job)).Some? && Accepted(rec)
    ensures ParseObjectKey(NormalizeKey(ExportObjectKey(prefix, org, job)).value) == None
    ensures NormalizeKey(ExportObjectKey(prefix, org, job)) != FileKey(PartitionKey(rec), id)
  {
    ExportKeySegments(prefix, org, job);
    if FileKey(PartitionKey(rec), id).Some? { FileKeySegments(rec, id); }
  }

  /** Exports of different jobs never share a stored key. */
  lemma ExportKeyInjective(prefix: string, org: Uuid, job: Uuid, org': Uuid, job': Uuid)
    requires NormalizeKey(ExportObjectKey(prefix, org, job)) == NormalizeKey(ExportObjectKey(prefix, org', job'))
    requires NormalizeKey(ExportObjectKey(prefix, org, job)).Some?
    ensures org == org' && job == job'
  {
    hide *;
    ExportKeySegments(prefix, org, job);
    ExportKeySegments(prefix, org', job');
    CsvInjective(job, job');
  }

  /* ---------- Memory ---------- */

  datatype GetResult = Found(body: string) | NotFound | InvalidKey

  /** What Get answers over the stored blobs. */
  function Fetch(blob: map<string, string>, key: string): GetResult {
    match NormalizeKey(key)
    case None => InvalidKey
    case Some(k) => if k in blob then Found(blob[k]) else NotFound
  }

  /** What was put under a key is got under every spelling of it, and under no other key; before any Put a legal
      key is not found. */
  lemma PutThenGet(blob: map<string, string>, put: string, body: string, key: string)
    requires NormalizeKey(put).Some?
    ensures Fetch(blob[NormalizeKey(put).value := body], key)
            == if NormalizeKey(key) == NormalizeKey(put) then Found(body) else Fetch(blob, key)
    ensures Fetch(map[], key) == if NormalizeKey(key) == None then InvalidKey else NotFound
  {
    hide NormalizeKey;
  }

  /** The keys List answers for a prefix. */
  function KeysUnder(blob: map<string, string>, prefix: string): set<string> {
    set k | k in blob && StartsWith(k, TrimSpace(prefix))
  }

  class Memory {
    var blob: map<string, string>

    constructor ()
      ensures blob == map[]
    {
      blob := map[];
    }

    method Put(key: string, body: string) returns (ok: bool)
      modifies this
      ensures ok <==> NormalizeKey(key).Some?
      ensures blob == if ok then old(blob)[NormalizeKey(key).value := body] else old(blob)
    {
      match NormalizeKey(key)
      case None => ok := false;
      case Some(k) =>
        blob := blob[k := body];
        ok := true;
    }

    method Get(key: string) returns (r: GetResult)
      ensures r == Fetch(blob, key)
    {
      match NormalizeKey(key)
      case None => r := InvalidKey;
      case Some(k) =>
        if k in blob { r := Found(blob[k]); } else { r := NotFound; }
    }

    /** The matching keys in the order of sort.Strings, each once. */
    method List(prefix: string) returns (keys: seq<string>)
      ensures keys == Listing(KeysUnder(blob, prefix))
      ensures Ascending(keys) && Elements(keys) == KeysUnder(blob, prefix)
      ensures forall k :: k in keys <==> k in blob && TrimSpace(prefix) <= k
    {
      var p := TrimSpace(prefix);
      var out := [];
      var todo := blob.Keys;
      while todo != {}
        invariant todo <= blob.Keys
        invariant Elements(out) == (set k | k in blob.Keys - todo && StartsWith(k, p))
        invariant Distinct(out)
        decreases todo
      {
        var k :| k in todo;
        assert blob.Keys - (todo - {k}) == (blob.Keys - todo) + {k};
        todo := todo - {k};
        if StartsWith(k, p) {
          assert k !in Elements(out);
          assert Elements(out + [k]) == Elements(out) + {k};
          out := out + [k];
        }
      }
      keys := Sort(out);
      AscendingUnique(keys, Listing(KeysUnder(blob, prefix)));
      assert forall k :: k in keys <==> k in Elements(keys);
    }
  }
}
