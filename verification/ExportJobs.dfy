/** The export job table and one worker that runs every queued job, one after another. */
module ExportJobs {
  import opened Text
  import opened Telemetry
  import opened Keys
  import opened Paths
  import opened Storage
  import opened Csv
  import opened Merge
  import opened Exports
  import opened Service
  import Archive

  datatype ExportJob = ExportJob(query: Query, status: Status, key: string, created: int)

  type Table = map<Uuid, ExportJob>

  function QueuedIds(jobs: Table): set<Uuid> { set id | id in jobs && jobs[id].status == Queued }

  /** A queued job no other queued job was created before. */
  predicate Earliest(jobs: Table, id: Uuid) {
    id in QueuedIds(jobs) && forall j :: j in QueuedIds(jobs) ==> jobs[id].created <= jobs[j].created
  }

  lemma {:induction false} EarliestOf(jobs: Table, ids: set<Uuid>) returns (id: Uuid)
    requires ids != {} && ids <= jobs.Keys
    ensures id in ids && forall j :: j in ids ==> jobs[id].created <= jobs[j].created
    decreases ids
  {
    id :| id in ids;
    if ids != {id} {
      var other := EarliestOf(jobs, ids - {id});
      if jobs[other].created < jobs[id].created { id := other; }
    }
  }

  class Repository {
    var jobs: Table

    constructor ()
      ensures jobs == map[]
    {
      jobs := map[];
    }

    /** The database picks a fresh id and the time. */
    method CreateExportJob(id: Uuid, query: Query, now: int)
      requires id !in jobs
      modifies this
      ensures jobs == old(jobs)[id := ExportJob(query, Queued, "", now)]
    {
      jobs := jobs[id := ExportJob(query, Queued, "", now)];
    }

    method ClaimNextExportJob() returns (r: Option<Uuid>)
      modifies this
      ensures r == None <==> QueuedIds(old(jobs)) == {}
      ensures r == None ==> jobs == old(jobs)
      ensures r.Some? ==>
                Earliest(old(jobs), r.value) && jobs == old(jobs)[r.value := old(jobs)[r.value].(status := Running)]
    {
      var queued := QueuedIds(jobs);
      if queued == {} { return None; }
      ghost var first := EarliestOf(jobs, queued);
      assert Earliest(jobs, first);
      var id :| id in jobs && Earliest(jobs, id);
      jobs := jobs[id := jobs[id].(status := Running)];
      r := Some(id);
    }

    method FinishExportJob(id: Uuid, status: Status, key: string) returns (err: bool)
      modifies this
      ensures err <==> id !in old(jobs)
      ensures jobs == if err then old(jobs) else old(jobs)[id := old(jobs)[id].(status := status, key := key)]
    {
      if id !in jobs { return true; }
      jobs := jobs[id := jobs[id].(status := status, key := key)];
      err := false;
    }
  }

  /* ---------- what a job produces ---------- */

  /** The file of an export over these objects; None when an object cannot be read. */
  ghost function Outcome(blob: map<string, string>, q: Query): Option<string> {
    MergedText(MergeRows(blob, MatchingKeys(blob, q), q))
  }

  ghost function Finished(job: ExportJob, id: Uuid, blob: map<string, string>, prefix: string): ExportJob {
    if Outcome(blob, job.query).Some? then job.(status := Succeeded, key := ExportObjectKey(prefix, job.query.org, id))
    else job.(status := Failed, key := "")
  }

  /** Archive keys are stored as they are. */
  predicate Plain(blob: map<string, string>) {
    forall k :: k in blob && ParseObjectKey(k).Some? ==> NormalizeKey(k) == Some(k)
  }

  /** The archive writer's own Puts keep it so. */
  lemma FilePutKeepsPlain(blob: map<string, string>, rec: Record, id: Uuid, text: string)
    requires Plain(blob) && Accepted(rec) && FileKey(PartitionKey(rec), id).Some?
    ensures Plain(blob[FileKey(PartitionKey(rec), id).value := text])
  {
    hide FileKey, NormalizeKey, ParseObjectKey, PartitionKey;
    if ParseObjectKey(FileKey(PartitionKey(rec), id).value).Some? { Archive.FoundFile(rec, id); }
  }

  /** An object whose key is no archive key changes no export. */
  lemma OutcomeKept(blob: map<string, string>, k: string, text: string, q: Query)
    requires Plain(blob) && ParseObjectKey(k) == None
    ensures Plain(blob[k := text]) && Outcome(blob[k := text], q) == Outcome(blob, q)
  {
    hide ParseObjectKey, NormalizeKey, MergeRows, MatchingKeys, FileText;
    MatchingKept(blob, k, text, q);
    MergeKept(blob, k, text, MatchingKeys(blob, q), q);
  }

  lemma MatchingKept(blob: map<string, string>, k: string, text: string, q: Query)
    requires ParseObjectKey(k) == None
    ensures MatchingKeys(blob[k := text], q) == MatchingKeys(blob, q)
    ensures forall x :: x in MatchingKeys(blob, q) ==> x in blob && ParseObjectKey(x).Some?
  {
    hide ParseObjectKey, Listing;
    var a, b := Listing(blob.Keys), Listing(blob[k := text].Keys);
    SelectAscending(a, q);
    SelectAscending(b, q);
    forall x ensures x in Elements(Select(a, q)) <==> x in Elements(Select(b, q)) {
      assert x in Elements(a) <==> x in a;
      assert x in Elements(b) <==> x in b;
      if Matches(x, q) { assert ParseObjectKey(x).Some?; }
    }
    AscendingUnique(Select(a, q), Select(b, q));
    forall x | x in Select(a, q) ensures x in blob && ParseObjectKey(x).Some? {
      assert x in Elements(a);
      assert Matches(x, q);
    }
  }

  lemma {:induction false} MergeKept(blob: map<string, string>, k: string, text: string, keys: seq<string>, q: Query)
    requires Plain(blob) && ParseObjectKey(k) == None && forall x :: x in keys ==> x in blob && ParseObjectKey(x).Some?
    ensures MergeRows(blob[k := text], keys, q) == MergeRows(blob, keys, q)
  {
    hide ParseObjectKey, NormalizeKey, ObjectRows;
    if keys != [] {
      MergeKept(blob, k, text, keys[1..], q);
      assert keys[0] in blob && NormalizeKey(keys[0]) == Some(keys[0]);
    }
  }

  /** Over an archive whose objects hold rows of their own partitions no export fails, and each is the full scan. */
  lemma OutcomeIsScan(blob: map<string, string>, files: Files, q: Query)
    requires Holds(blob, files)
    ensures Outcome(blob, q) == Some(FileText(Rows(FullScan(files, q))))
  {
    hide Holds, MergeRows, MatchingKeys, FullScan, Rows, FileText;
    PruningLosesNothing(blob, files, q);
  }

  /** Claimed jobs are finished, each with its outcome over the objects of the start; others are as before. */
  ghost predicate TableDone(jobs: Table, now: Table, claimed: seq<Uuid>, blob: map<string, string>, prefix: string) {
    && now.Keys == jobs.Keys
    && forall id :: id in jobs ==> now[id] == if id in claimed then Finished(jobs[id], id, blob, prefix) else jobs[id]
  }

  predicate AllQueued(jobs: Table, claimed: seq<Uuid>) {
    forall i :: 0 <= i < |claimed| ==> claimed[i] in QueuedIds(jobs)
  }

  predicate NoRepeats(ids: seq<Uuid>) { forall i, j :: 0 <= i < j < |ids| ==> ids[i] != ids[j] }

  predicate OldestFirst(jobs: Table, claimed: seq<Uuid>)
    requires AllQueued(jobs, claimed)
  {
    forall i, j :: 0 <= i < j < |claimed| ==> jobs[claimed[i]].created <= jobs[claimed[j]].created
  }

  predicate YoungerLeft(jobs: Table, claimed: seq<Uuid>, now: Table)
    requires AllQueued(jobs, claimed)
  {
    forall i, id :: 0 <= i < |claimed| && id in QueuedIds(now) ==> jobs[claimed[i]].created <= now[id].created
  }

  ghost predicate SameOutcomes(blob: map<string, string>, held: map<string, string>) {
    forall q :: Outcome(held, q) == Outcome(blob, q)
  }

  /** No export that these jobs produced is stored under this key. */
  ghost predicate NotExported(jobs: Table, claimed: seq<Uuid>, blob: map<string, string>, prefix: string, k: string)
    requires AllQueued(jobs, claimed)
  {
    forall id :: id in claimed && Outcome(blob, jobs[id].query).Some? ==>
        StoredKey(prefix, id, jobs[id].query) != Some(k)
  }

  /** Each finished export is stored under its key, and nothing else has changed. */
  ghost predicate StoreDone(jobs: Table, claimed: seq<Uuid>, blob: map<string, string>,
          now: map<string, string>, prefix: string)
    requires AllQueued(jobs, claimed)
  {
    && (forall id :: id in claimed && Outcome(blob, jobs[id].query).Some? ==>
          Fetch(now, ExportObjectKey(prefix, jobs[id].query.org, id)) == Found(Outcome(blob, jobs[id].query).value))
    && (forall k :: k in blob.Keys + now.Keys && NotExported(jobs, claimed, blob, prefix, k) ==>
          k in blob && k in now && now[k] == blob[k])
  }

  ghost predicate Progress(jobs: Table, now: Table, claimed: seq<Uuid>, blob: map<string, string>,
          held: map<string, string>, prefix: string) {
    && AllQueued(jobs, claimed) && NoRepeats(claimed)
    && |claimed| + |QueuedIds(now)| == |QueuedIds(jobs)|
    && OldestFirst(jobs, claimed)
    && YoungerLeft(jobs, claimed, now)
    && TableDone(jobs, now, claimed, blob, prefix)
    && StoreDone(jobs, claimed, blob, held, prefix)
    && Plain(held)
    && SameOutcomes(blob, held)
  }

  lemma ProgressStarts(jobs: Table, blob: map<string, string>, prefix: string)
    requires Plain(blob)
    ensures Progress(jobs, jobs, [], blob, blob, prefix)
  {
    hide Outcome, Plain;
  }

  function WithExport(held: map<string, string>, key: string, text: Option<string>): map<string, string> {
    if text.Some? && NormalizeKey(key).Some? then held[NormalizeKey(key).value := text.value] else held
  }

  lemma StoreOneMore(jobs: Table, claimed: seq<Uuid>, blob: map<string, string>, held: map<string, string>,
          prefix: string, id: Uuid)
    requires AllQueued(jobs, claimed) && id in QueuedIds(jobs) && id !in claimed
    requires StoreDone(jobs, claimed, blob, held, prefix)
    requires Outcome(blob, jobs[id].query).Some? ==> NormalizeKey(ExportObjectKey(prefix, jobs[id].query.org, id)).Some?
    ensures AllQueued(jobs, claimed + [id])
    ensures StoreDone(jobs, claimed + [id], blob,
              WithExport(held, ExportObjectKey(prefix, jobs[id].query.org, id), Outcome(blob, jobs[id].query)), prefix)
  {
    hide Outcome, ExportObjectKey, NormalizeKey;
    var org := jobs[id].query.org;
    var now := WithExport(held, ExportObjectKey(prefix, org, id), Outcome(blob, jobs[id].query));
    var mine := NormalizeKey(ExportObjectKey(prefix, org, id));
    forall i | i in claimed + [id] && Outcome(blob, jobs[i].query).Some?
      ensures Fetch(now, ExportObjectKey(prefix, jobs[i].query.org, i)) == Found(Outcome(blob, jobs[i].query).value)
    {
      if i != id {
        assert i in claimed;
        if mine == NormalizeKey(ExportObjectKey(prefix, jobs[i].query.org, i)) {
          ExportKeyInjective(prefix, org, id, jobs[i].query.org, i);
        }
      }
    }
    forall k | k in blob.Keys + now.Keys && NotExported(jobs, claimed + [id], blob, prefix, k)
      ensures k in blob && k in now && now[k] == blob[k]
    {
      assert id in claimed + [id];
      assert StoredKey(prefix, id, jobs[id].query) == mine;
      forall i | i in claimed && Outcome(blob, jobs[i].query).Some?
        ensures StoredKey(prefix, i, jobs[i].query) != Some(k)
      {
        assert i in claimed + [id];
      }
      assert NotExported(jobs, claimed, blob, prefix, k);
    }
  }

  /** The earliest queued job is one that was queued at the start, and comes after those claimed. */
  lemma ClaimNext(jobs: Table, before: Table, claimed: seq<Uuid>, blob: map<string, string>, prefix: string, id: Uuid)
    requires AllQueued(jobs, claimed) && TableDone(jobs, before, claimed, blob, prefix) && Earliest(before, id)
    requires OldestFirst(jobs, claimed) && YoungerLeft(jobs, claimed, before)
    ensures id in QueuedIds(jobs) && id !in claimed && before[id] == jobs[id]
    ensures var now := before[id := Finished(jobs[id], id, blob, prefix)];
            && QueuedIds(now) == QueuedIds(before) - {id}
            && AllQueued(jobs, claimed + [id])
            && OldestFirst(jobs, claimed + [id])
            && YoungerLeft(jobs, claimed + [id], now)
            && TableDone(jobs, now, claimed + [id], blob, prefix)
  {
    hide Outcome, ExportObjectKey;
  }

  lemma OneMore(jobs: Table, before: Table, claimed: seq<Uuid>, blob: map<string, string>,
          held: map<string, string>, prefix: string, id: Uuid)
    requires Progress(jobs, before, claimed, blob, held, prefix) && Earliest(before, id)
    requires id in jobs && Outcome(blob, jobs[id].query).Some? ==> !Unsafe(prefix)
    ensures id in jobs && before[id] == jobs[id]
    ensures Progress(jobs, before[id := Finished(jobs[id], id, blob, prefix)], claimed + [id], blob,
                     WithExport(held, ExportObjectKey(prefix, jobs[id].query.org, id), Outcome(blob, jobs[id].query)),
                     prefix)
    ensures |QueuedIds(before[id := Finished(jobs[id], id, blob, prefix)])| == |QueuedIds(before)| - 1
  {
    hide Outcome, Unsafe, ExportObjectKey, NormalizeKey, ParseObjectKey, Plain, StoreDone, WithExport, TableDone,
      YoungerLeft, OldestFirst, AllQueued, Finished;
    ClaimNext(jobs, before, claimed, blob, prefix, id);
    var q := jobs[id].query;
    ExportKeyRefused(prefix, q.org, id);
    StoreOneMore(jobs, claimed, blob, held, prefix, id);
    if NormalizeKey(ExportObjectKey(prefix, q.org, id)).Some? { ExportUnparsed(prefix, q.org, id); }
    StoreKeeps(held, ExportObjectKey(prefix, q.org, id), Outcome(blob, q));
  }

  lemma ExportUnparsed(prefix: string, org: Uuid, id: Uuid)
    requires NormalizeKey(ExportObjectKey(prefix, org, id)).Some?
    ensures ParseObjectKey(NormalizeKey(ExportObjectKey(prefix, org, id)).value) == None
  {
    hide NormalizeKey, ExportObjectKey, Split;
    ExportKeySegments(prefix, org, id);
    Archive.ForeignUnparsed(NormalizeKey(ExportObjectKey(prefix, org, id)).value);
  }

  lemma StoreKeeps(held: map<string, string>, key: string, text: Option<string>)
    requires Plain(held) && (NormalizeKey(key).Some? ==> ParseObjectKey(NormalizeKey(key).value) == None)
    ensures Plain(WithExport(held, key, text))
    ensures forall q :: Outcome(WithExport(held, key, text), q) == Outcome(held, q)
  {
    hide Outcome, NormalizeKey, ParseObjectKey, Plain;
    if text.Some? && NormalizeKey(key).Some? {
      OutcomeKept(held, NormalizeKey(key).value, text.value, Query(NIL, [], 0, 0));
      forall q ensures Outcome(WithExport(held, key, text), q) == Outcome(held, q) {
        OutcomeKept(held, NormalizeKey(key).value, text.value, q);
      }
    }
  }

  lemma AllClaimed(jobs: Table, now: Table, claimed: seq<Uuid>, blob: map<string, string>,
          held: map<string, string>, prefix: string)
    requires Progress(jobs, now, claimed, blob, held, prefix) && QueuedIds(now) == {}
    ensures forall id :: id in claimed <==> id in QueuedIds(jobs)
  {
    hide Outcome, Plain, StoreDone, ExportObjectKey;
    assert forall id :: id in jobs ==> id in claimed || now[id] == jobs[id];
    assert forall id :: id in jobs && now[id].status == Queued ==> id in QueuedIds(now);
  }

  /* ---------- the worker ---------- */

  /** How processing one job ends; Stuck stands for never. */
  datatype Ending = Done | Erred | Stuck

  /** The job never ends: Put refuses its key without reading, and the merge has something to write. spills
      are the jobs whose merge, should it fail, has filled its output buffer before. */
  ghost predicate Hangs(q: Query, id: Uuid, blob: map<string, string>, prefix: string, spills: set<Uuid>) {
    Unsafe(prefix) && (Outcome(blob, q).Some? || id in spills)
  }

  /** The claimed jobs that were finished. */
  function Ended(claimed: seq<Uuid>, hung: bool): seq<Uuid> {
    if hung && claimed != [] then claimed[..|claimed| - 1] else claimed
  }

  ghost predicate NoneHangs(jobs: Table, done: seq<Uuid>, blob: map<string, string>, prefix: string, spills: set<Uuid>)
    requires AllQueued(jobs, done)
  {
    forall i :: 0 <= i < |done| ==> !Hangs(jobs[done[i]].query, done[i], blob, prefix, spills)
  }

  /** How far the worker came: all queued jobs, the oldest first, up to the first that hangs. The others are
      finished with their outcomes over the objects of the start. */
  ghost predicate QueueDone(jobs: Table, now: Table, claimed: seq<Uuid>, hung: bool, blob: map<string, string>,
          held: map<string, string>, prefix: string, spills: set<Uuid>) {
    && AllQueued(jobs, claimed) && NoRepeats(claimed) && OldestFirst(jobs, claimed) && YoungerLeft(jobs, claimed, now)
    && AllQueued(jobs, Ended(claimed, hung)) && NoneHangs(jobs, Ended(claimed, hung), blob, prefix, spills)
    && StoreDone(jobs, Ended(claimed, hung), blob, held, prefix)
    && (if hung then
          claimed != [] &&
          var last := claimed[|claimed| - 1];
          && Hangs(jobs[last].query, last, blob, prefix, spills)
          && last in now && now[last] == jobs[last].(status := Running)
          && TableDone(jobs, now[last := jobs[last]], Ended(claimed, hung), blob, prefix)
        else
          && |claimed| == |QueuedIds(jobs)| && (forall id :: id in claimed <==> id in QueuedIds(jobs))
          && TableDone(jobs, now, claimed, blob, prefix))
  }

  /** The worker stops at a job that hangs. */
  lemma StuckAt(jobs: Table, before: Table, claimed: seq<Uuid>, blob: map<string, string>, held: map<string, string>,
          prefix: string, spills: set<Uuid>, id: Uuid)
    requires Progress(jobs, before, claimed, blob, held, prefix) && NoneHangs(jobs, claimed, blob, prefix, spills)
    requires Earliest(before, id) && Hangs(before[id].query, id, held, prefix, spills)
    ensures QueueDone(jobs, before[id := before[id].(status := Running)],
              claimed + [id], true, blob, held, prefix, spills)
  {
    hide Outcome, Unsafe, ExportObjectKey, Plain, StoreDone, Finished;
    ClaimNext(jobs, before, claimed, blob, prefix, id);
    var now := before[id := before[id].(status := Running)];
    assert Ended(claimed + [id], true) == claimed;
    assert now[id := jobs[id]] == before;
    assert Outcome(held, jobs[id].query) == Outcome(blob, jobs[id].query);
    forall x | x in QueuedIds(now) ensures x in QueuedIds(before) && now[x] == before[x] {}
  }

  /** The next job to claim. */
  lemma NextJob(jobs: Table, before: Table, claimed: seq<Uuid>, blob: map<string, string>, held: map<string, string>,
          prefix: string, id: Uuid)
    requires Progress(jobs, before, claimed, blob, held, prefix) && Earliest(before, id)
    ensures id in QueuedIds(jobs) && before[id] == jobs[id]
    ensures Outcome(held, jobs[id].query) == Outcome(blob, jobs[id].query)
  {
    hide Outcome, Plain, StoreDone, ExportObjectKey;
    ClaimNext(jobs, before, claimed, blob, prefix, id);
  }

  lemma NoneClaimed(jobs: Table, blob: map<string, string>, prefix: string, spills: set<Uuid>)
    ensures NoneHangs(jobs, [], blob, prefix, spills)
  {
  }

  lemma NoneHangsNext(jobs: Table, claimed: seq<Uuid>, id: Uuid, blob: map<string, string>, held: map<string, string>,
          prefix: string, spills: set<Uuid>)
    requires AllQueued(jobs, claimed) && id in QueuedIds(jobs) && NoneHangs(jobs, claimed, blob, prefix, spills)
    requires Outcome(held, jobs[id].query) == Outcome(blob, jobs[id].query)
    requires !Hangs(jobs[id].query, id, held, prefix, spills)
    ensures AllQueued(jobs, claimed + [id]) && NoneHangs(jobs, claimed + [id], blob, prefix, spills)
  {
    hide Outcome, Unsafe;
  }

  lemma QueueEmpty(jobs: Table, now: Table, claimed: seq<Uuid>, blob: map<string, string>, held: map<string, string>,
          prefix: string, spills: set<Uuid>)
    requires Progress(jobs, now, claimed, blob, held, prefix) && NoneHangs(jobs, claimed, blob, prefix, spills)
    requires QueuedIds(now) == {}
    ensures QueueDone(jobs, now, claimed, false, blob, held, prefix, spills)
  {
    hide Outcome, Unsafe, Plain, StoreDone, ExportObjectKey, Hangs;
    AllClaimed(jobs, now, claimed, blob, held, prefix);
  }

  class Worker {
    const repo: Repository
    const objects: Memory?
    const prefix: string

    constructor (repo: Repository, objects: Memory?, prefix: string)
      ensures this.repo == repo && this.objects == objects && this.prefix == if prefix == "" then "exports" else prefix
    {
      this.repo := repo;
      this.objects := objects;
      this.prefix := if prefix == "" then "exports" else prefix;
    }

    /** Merge and Put over the pipe, as the Pipe model says they end: a refused key is never read, so the
        merge returns only if it had nothing to write; else both run to the end, and a merge that fails
        makes Put fail before it stores. */
    method Process(id: Uuid, q: Query, spills: set<Uuid>) returns (r: Ending)
      requires objects != null && id in repo.jobs
      modifies repo, objects
      ensures r == Stuck <==> Hangs(q, id, old(objects.blob), prefix, spills)
      ensures r == Done <==> !Unsafe(prefix) && Outcome(old(objects.blob), q).Some?
      ensures r != Done ==> objects.blob == old(objects.blob) && repo.jobs == old(repo.jobs)
      ensures r == Done ==> StoredKey(prefix, id, q).Some?
      ensures r == Done ==>
                objects.blob == old(objects.blob)[StoredKey(prefix, id, q).value := Outcome(old(objects.blob), q).value]
      ensures r == Done ==>
                repo.jobs == old(repo.jobs)[id := old(repo.jobs)[id].(status := Succeeded,
                    key := ExportObjectKey(prefix, q.org, id))]
    {
      hide MatchingKeys, MergeRows, NormalizeKey, ExportObjectKey, Unsafe, MergedText;
      var keys := ListMatching(objects, q);
      if keys == None { return Erred; }
      var merged := MergeCsv(objects, keys.value, q);
      var key := ExportObjectKey(prefix, q.org, id);
      ExportKeyRefused(prefix, q.org, id);
      if NormalizeKey(key) == None {
        return if merged != None || id in spills then Stuck else Erred;
      }
      if merged == None { return Erred; }
      var ok := objects.Put(key, merged.value);
      if !ok { return Erred; }
      var err := repo.FinishExportJob(id, Succeeded, key);
      r := if err then Erred else Done;
    }

    /** Claims and runs every queued job, the oldest first. Each ends with the outcome it would have had
        alone over the objects present at the start; n counts them. hung says that the worker never
        returns, which happens exactly when it comes to a job that hangs. */
    method ProcessQueued(spills: set<Uuid>) returns (n: nat, hung: bool, ghost claimed: seq<Uuid>)
      requires objects != null ==> Plain(objects.blob)
      modifies repo, objects
      ensures objects == null ==> n == 0 && !hung && repo.jobs == old(repo.jobs)
      ensures objects != null ==> n == |Ended(claimed, hung)|
      ensures objects != null ==>
                QueueDone(old(repo.jobs), repo.jobs, claimed, hung, old(objects.blob), objects.blob, prefix, spills)
    {
      hide Outcome, Unsafe, ExportObjectKey, NormalizeKey, ParseObjectKey, Plain, Progress, QueueDone, NoneHangs,
        QueuedIds;
      n, hung, claimed := 0, false, [];
      if objects == null { return; }
      ghost var jobs, blob := repo.jobs, objects.blob;
      ProgressStarts(jobs, blob, prefix);
      NoneClaimed(jobs, blob, prefix, spills);
      while true
        invariant Progress(jobs, repo.jobs, claimed, blob, objects.blob, prefix)
        invariant AllQueued(jobs, claimed) && NoneHangs(jobs, claimed, blob, prefix, spills)
        invariant n == |claimed| && !hung
        decreases |QueuedIds(repo.jobs)|
      {
        ghost var before, held := repo.jobs, objects.blob;
        var r := repo.ClaimNextExportJob();
        if r == None {
          QueueEmpty(jobs, repo.jobs, claimed, blob, objects.blob, prefix, spills);
          return;
        }
        var id := r.value;
        NextJob(jobs, before, claimed, blob, held, prefix, id);
        var end := Process(id, repo.jobs[id].query, spills);
        if end == Stuck {
          StuckAt(jobs, before, claimed, blob, held, prefix, spills, id);
          claimed, hung := claimed + [id], true;
          return;
        }
        OneMore(jobs, before, claimed, blob, held, prefix, id);
        NoneHangsNext(jobs, claimed, id, blob, held, prefix, spills);
        if end == Erred {
          var ignored := repo.FinishExportJob(id, Failed, "");
        }
        n := n + 1;
        assert repo.jobs == before[id := Finished(jobs[id], id, blob, prefix)];
        claimed := claimed + [id];
      }
    }
  }

  /** With a prefix the store accepts the worker never hangs: it finishes exactly the queued jobs. */
  lemma SafePrefix(jobs: Table, now: Table, claimed: seq<Uuid>, hung: bool, blob: map<string, string>,
          held: map<string, string>, prefix: string, spills: set<Uuid>)
    requires QueueDone(jobs, now, claimed, hung, blob, held, prefix, spills) && !Unsafe(prefix)
    ensures !hung && |Ended(claimed, hung)| == |QueuedIds(jobs)|
    ensures forall id :: id in QueuedIds(jobs) ==> now[id] == Finished(jobs[id], id, blob, prefix)
  {
    hide Outcome, Unsafe, Finished, StoreDone;
  }
}
