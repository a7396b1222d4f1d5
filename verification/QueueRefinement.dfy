/** The class that runs the export queue is one way to run the service: what it does to its job table and
    its store is what some run of the interleaved model does, so what holds of every run holds of it. */
module QueueRefinement {
  import opened Text
  import opened Telemetry
  import opened Keys
  import opened Paths
  import opened Storage
  import opened Csv
  import opened Merge
  import opened Service
  import opened ExportJobs

  /** The same jobs and the same store, and the worker has nothing in hand. */
  predicate Related(jobs: Table, blob: map<string, string>, s: World, w: nat) {
    SameTable(jobs, s) && s.archive.blob == blob && PhaseOf(s, w).Idle?
  }

  predicate SameJob(a: ExportJob, b: Job) { a.query == b.query && a.status == b.status && a.key == b.key }

  predicate SameTable(jobs: Table, s: World) {
    jobs.Keys == s.jobs.Keys && forall id :: id in jobs ==> SameJob(jobs[id], s.jobs[id])
  }

  /** Everything but one job, one worker and the store is as before. */
  ghost predicate Apart(s: World, t: World, id: Uuid, w: nat) {
    && t.jobs.Keys == s.jobs.Keys && (forall j :: j in s.jobs && j != id ==> t.jobs[j] == s.jobs[j])
    && id in s.jobs && t.jobs[id].query == s.jobs[id].query
    && (forall v :: v != w ==> PhaseOf(t, v) == PhaseOf(s, v))
  }

  lemma ApartChain(s: World, t: World, u: World, id: Uuid, w: nat)
    requires Apart(s, t, id, w) && Apart(t, u, id, w)
    ensures Apart(s, u, id, w)
  {
  }

  /** A claimed and listed job. */
  predicate Reading(s: World, w: nat, id: Uuid, keys: seq<string>) {
    PhaseOf(s, w).Merging? && PhaseOf(s, w).job == id && PhaseOf(s, w).keys == keys
    && id in s.jobs && s.jobs[id].status == Running && s.jobs[id].key == ""
  }

  /** Claim and List. */
  lemma StartRuns(events: seq<Event>, s: World, w: nat, id: Uuid, prefix: string,
          maxRows: nat) returns (longer: seq<Event>)
    requires Valid(events, prefix, maxRows) && After(events, prefix, maxRows) == s
    requires PhaseOf(s, w).Idle? && id in s.jobs && s.jobs[id].status == Queued && s.jobs[id].key == ""
    ensures Valid(longer, prefix, maxRows)
    ensures var t := After(longer, prefix, maxRows);
            && Apart(s, t, id, w) && t.archive == s.archive
            && Reading(t, w, id, MatchingKeys(s.archive.blob, s.jobs[id].query))
            && PhaseOf(t, w).pos == 0 && PhaseOf(t, w).rows == []
  {
    hide Valid, After, MatchingKeys, Archive.Apply, Archive.Enabled, RowsAt, StoredKey, FileText;
    Extends(events, prefix, maxRows, Claim(w, id));
    longer := events + [Claim(w, id)];
    Extends(longer, prefix, maxRows, Event.List(w));
    longer := longer + [Event.List(w)];
  }

  /** The reads, up to the end or to the first object that cannot be read. */
  lemma {:induction false} ReadsRun(events: seq<Event>, s: World, w: nat, id: Uuid, keys: seq<string>,
          prefix: string, maxRows: nat)
    returns (longer: seq<Event>)
    requires Valid(events, prefix, maxRows) && After(events, prefix, maxRows) == s && Reading(s, w, id, keys)
    requires PhaseOf(s, w).pos <= |keys|
    requires MergeRows(s.archive.blob, keys[..PhaseOf(s, w).pos], s.jobs[id].query) == Some(PhaseOf(s, w).rows)
    ensures Valid(longer, prefix, maxRows)
    ensures var t := After(longer, prefix, maxRows);
            var rows := MergeRows(s.archive.blob, keys, s.jobs[id].query);
            && Apart(s, t, id, w) && t.archive == s.archive && Reading(t, w, id, keys)
            && (rows.Some? ==> PhaseOf(t, w).pos == |keys| && PhaseOf(t, w).rows == rows.value)
    decreases |keys| - PhaseOf(s, w).pos
  {
    hide Valid, After, MatchingKeys, Archive.Apply, Archive.Enabled, RowsAt, StoredKey, FileText, MergeRows;
    var p, q := PhaseOf(s, w), s.jobs[id].query;
    longer := events;
    if p.pos == |keys| {
      assert keys[..|keys|] == keys;
    } else if RowsAt(s.archive.blob, keys[p.pos], q) == None {
      MergeStops(s.archive.blob, keys, p.pos, q);
    } else {
      MergeStep(s.archive.blob, keys, p.pos, q);
      Extends(events, prefix, maxRows, Event.Read(w));
      var t := Do(s, Event.Read(w), prefix, maxRows);
      longer := ReadsRun(events + [Event.Read(w)], t, w, id, keys, prefix, maxRows);
      ApartChain(s, t, After(longer, prefix, maxRows), id, w);
    }
  }

  /** A whole job that does not hang, from the queue to its end. */
  lemma JobRuns(events: seq<Event>, s: World, w: nat, id: Uuid, prefix: string,
          maxRows: nat) returns (longer: seq<Event>)
    requires Valid(events, prefix, maxRows) && After(events, prefix, maxRows) == s
    requires PhaseOf(s, w).Idle? && id in s.jobs && s.jobs[id].status == Queued && s.jobs[id].key == ""
    requires Outcome(s.archive.blob, s.jobs[id].query).Some? ==> StoredKey(prefix, id, s.jobs[id].query).Some?
    ensures Valid(longer, prefix, maxRows)
    ensures var t, q := After(longer, prefix, maxRows), s.jobs[id].query;
            var text := Outcome(s.archive.blob, q);
            && Apart(s, t, id, w) && PhaseOf(t, w).Idle?
            && t.archive.blob == WithExport(s.archive.blob, ExportObjectKey(prefix, q.org, id), text)
            && t.jobs[id].status == (if text.Some? then Succeeded else Failed)
            && t.jobs[id].key == if text.Some? then ExportObjectKey(prefix, q.org, id) else ""
  {
    hide Valid, After, MatchingKeys, Archive.Apply, Archive.Enabled, RowsAt, FileText, MergeRows, NormalizeKey,
      ExportObjectKey;
    var q := s.jobs[id].query;
    var keys := MatchingKeys(s.archive.blob, q);
    longer := StartRuns(events, s, w, id, prefix, maxRows);
    var a := After(longer, prefix, maxRows);
    NothingMerged(s.archive.blob, keys, q);
    longer := ReadsRun(longer, a, w, id, keys, prefix, maxRows);
    var b := After(longer, prefix, maxRows);
    ApartChain(s, a, b, id, w);
    if MergeRows(s.archive.blob, keys, q).Some? {
      longer := StoreRuns(longer, b, w, id, keys, prefix, maxRows);
    } else {
      longer := FailRuns(longer, b, w, id, keys, prefix, maxRows);
    }
    ApartChain(s, b, After(longer, prefix, maxRows), id, w);
  }

  lemma NothingMerged(blob: map<string, string>, keys: seq<string>, q: Query)
    ensures MergeRows(blob, keys[..0], q) == Some([])
  {
  }

  lemma StoreRuns(events: seq<Event>, s: World, w: nat, id: Uuid, keys: seq<string>, prefix: string, maxRows: nat)
    returns (longer: seq<Event>)
    requires Valid(events, prefix, maxRows) && After(events, prefix, maxRows) == s && Reading(s, w, id, keys)
    requires PhaseOf(s, w).pos == |keys| && NonEmptyRows(PhaseOf(s, w).rows)
    requires StoredKey(prefix, id, s.jobs[id].query).Some?
    ensures Valid(longer, prefix, maxRows)
    ensures var t, q := After(longer, prefix, maxRows), s.jobs[id].query;
            && Apart(s, t, id, w) && PhaseOf(t, w).Idle?
            && t.archive.blob == s.archive.blob[StoredKey(prefix, id, q).value := FileText(PhaseOf(s, w).rows)]
            && t.jobs[id].status == Succeeded && t.jobs[id].key == ExportObjectKey(prefix, q.org, id)
  {
    hide Valid, After, MatchingKeys, Archive.Apply, Archive.Enabled, RowsAt, FileText, NormalizeKey, ExportObjectKey,
      NonEmptyRows;
    Extends(events, prefix, maxRows, PutExport(w));
    longer := events + [PutExport(w)];
    Extends(longer, prefix, maxRows, FinishOk(w, true));
    longer := longer + [FinishOk(w, true)];
  }

  lemma FailRuns(events: seq<Event>, s: World, w: nat, id: Uuid, keys: seq<string>, prefix: string, maxRows: nat)
    returns (longer: seq<Event>)
    requires Valid(events, prefix, maxRows) && After(events, prefix, maxRows) == s && Reading(s, w, id, keys)
    ensures Valid(longer, prefix, maxRows)
    ensures var t := After(longer, prefix, maxRows);
            && Apart(s, t, id, w) && PhaseOf(t, w).Idle? && t.archive == s.archive
            && t.jobs[id].status == Failed && t.jobs[id].key == ""
  {
    hide Valid, After, MatchingKeys, Archive.Apply, Archive.Enabled, RowsAt, FileText, StoredKey, ExportObjectKey;
    Extends(events, prefix, maxRows, Abort(w, None));
    longer := events + [Abort(w, None)];
    Extends(longer, prefix, maxRows, FinishFailed(w, true));
    longer := longer + [FinishFailed(w, true)];
  }

  /* ---------- the queue ---------- */

  /** Queued jobs have no object yet. */
  predicate FreshlyQueued(jobs: Table) { forall id :: id in jobs && jobs[id].status == Queued ==> jobs[id].key == "" }

  ghost predicate Reached(jobs: Table, now: Table, done: seq<Uuid>, blob: map<string, string>,
          held: map<string, string>, prefix: string) {
    && AllQueued(jobs, done) && TableDone(jobs, now, done, blob, prefix) && StoreDone(jobs, done, blob, held, prefix)
    && ExportJobs.Plain(held) && SameOutcomes(blob, held)
  }

  /** One more job of the queue, run by the worker. */
  lemma NextJobRuns(events: seq<Event>, jobs: Table, now: Table, done: seq<Uuid>, id: Uuid, blob: map<string, string>,
          held: map<string, string>, w: nat, prefix: string, maxRows: nat)
    returns (longer: seq<Event>, later: Table, stored: map<string, string>)
    requires Valid(events, prefix, maxRows) && Related(now, held, After(events, prefix, maxRows), w)
    requires FreshlyQueued(jobs) && Reached(jobs, now, done, blob, held, prefix) && id in QueuedIds(jobs) && id !in done
    requires Outcome(blob, jobs[id].query).Some? ==> !Unsafe(prefix)
    ensures Valid(longer, prefix, maxRows) && Related(later, stored, After(longer, prefix, maxRows), w)
    ensures Reached(jobs, later, done + [id], blob, stored, prefix)
  {
    hide Valid, After, Outcome, Unsafe, ExportObjectKey, NormalizeKey, ParseObjectKey, ExportJobs.Plain, StoreDone,
      WithExport, Related, Apart, TableDone, SameOutcomes;
    var s, q := After(events, prefix, maxRows), jobs[id].query;
    ExportKeyRefused(prefix, q.org, id);
    StillQueued(jobs, now, done, id, blob, held, prefix, s, w);
    longer := JobRuns(events, s, w, id, prefix, maxRows);
    later := now[id := Finished(jobs[id], id, blob, prefix)];
    stored := WithExport(held, ExportObjectKey(prefix, q.org, id), Outcome(blob, q));
    StoreOneMore(jobs, done, blob, held, prefix, id);
    if NormalizeKey(ExportObjectKey(prefix, q.org, id)).Some? { ExportUnparsed(prefix, q.org, id); }
    StoreKeeps(held, ExportObjectKey(prefix, q.org, id), Outcome(blob, q));
    SameChain(blob, held, stored);
    TableNext(jobs, now, done, id, blob, prefix);
    RelatedNext(now, held, s, After(longer, prefix, maxRows), id, w, later[id], stored);
  }

  lemma SameChain(blob: map<string, string>, held: map<string, string>, stored: map<string, string>)
    requires SameOutcomes(blob, held) && forall q :: Outcome(stored, q) == Outcome(held, q)
    ensures SameOutcomes(blob, stored)
  {
    hide Outcome;
  }

  lemma StillQueued(jobs: Table, now: Table, done: seq<Uuid>, id: Uuid, blob: map<string, string>,
          held: map<string, string>,
          prefix: string, s: World, w: nat)
    requires FreshlyQueued(jobs) && TableDone(jobs, now, done, blob, prefix) && SameOutcomes(blob, held)
    requires id in QueuedIds(jobs) && id !in done && Related(now, held, s, w)
    ensures id in now && now[id] == jobs[id] && Outcome(held, jobs[id].query) == Outcome(blob, jobs[id].query)
    ensures PhaseOf(s, w).Idle? && id in s.jobs && s.jobs[id].status == Queued && s.jobs[id].key == ""
    ensures s.jobs[id].query == jobs[id].query && s.archive.blob == held
  {
    hide Outcome, Finished;
  }

  lemma TableNext(jobs: Table, now: Table, done: seq<Uuid>, id: Uuid, blob: map<string, string>, prefix: string)
    requires TableDone(jobs, now, done, blob, prefix) && id in jobs
    ensures TableDone(jobs, now[id := Finished(jobs[id], id, blob, prefix)], done + [id], blob, prefix)
  {
    hide Finished;
  }

  lemma TableFollows(now: Table, s: World, t: World, id: Uuid, w: nat, job: ExportJob)
    requires SameTable(now, s) && Apart(s, t, id, w) && SameJob(job, t.jobs[id])
    ensures SameTable(now[id := job], t)
  {
    hide SameJob, IsNumber, IsUuid;
    var later := now[id := job];
    assert id in s.jobs && id in now;
    assert later.Keys == now.Keys;
    forall j | j in later ensures SameJob(later[j], t.jobs[j]) {
      if j != id { assert later[j] == now[j] && t.jobs[j] == s.jobs[j]; }
    }
  }

  lemma RelatedNext(now: Table, held: map<string, string>, s: World, t: World, id: Uuid, w: nat, job: ExportJob,
          stored: map<string, string>)
    requires Related(now, held, s, w) && Apart(s, t, id, w) && PhaseOf(t, w).Idle? && t.archive.blob == stored
    requires id in now && job.query == now[id].query && job.status == t.jobs[id].status && job.key == t.jobs[id].key
    ensures Related(now[id := job], stored, t, w)
  {
    hide SameTable, IsNumber, IsUuid;
    QueryKept(now, s, t, id, w);
    TableFollows(now, s, t, id, w, job);
  }

  lemma QueryKept(now: Table, s: World, t: World, id: Uuid, w: nat)
    requires SameTable(now, s) && Apart(s, t, id, w)
    ensures id in now && now[id].query == t.jobs[id].query
  {
    hide IsNumber, IsUuid;
    assert id in now && SameJob(now[id], s.jobs[id]);
  }

  lemma {:induction false} JobsRun(events: seq<Event>, jobs: Table, done: seq<Uuid>, blob: map<string, string>, w: nat,
          prefix: string, maxRows: nat)
    returns (longer: seq<Event>, later: Table, stored: map<string, string>)
    requires Valid(events, prefix, maxRows) && Related(jobs, blob, After(events, prefix, maxRows), w)
    requires FreshlyQueued(jobs) && ExportJobs.Plain(blob) && AllQueued(jobs, done) && NoRepeats(done)
    requires forall i :: 0 <= i < |done| && Outcome(blob, jobs[done[i]].query).Some? ==> !Unsafe(prefix)
    ensures Valid(longer, prefix, maxRows) && Related(later, stored, After(longer, prefix, maxRows), w)
    ensures Reached(jobs, later, done, blob, stored, prefix)
  {
    hide Valid, After, Outcome, Unsafe, ExportJobs.Plain, StoreDone, Related, TableDone;
    if done == [] {
      longer, later, stored := events, jobs, blob;
      NothingDone(jobs, blob, prefix);
    } else {
      var front, id := done[..|done| - 1], done[|done| - 1];
      longer, later, stored := JobsRun(events, jobs, front, blob, w, prefix, maxRows);
      longer, later, stored := NextJobRuns(longer, jobs, later, front, id, blob, stored, w, prefix, maxRows);
      assert front + [id] == done;
    }
  }

  lemma NothingDone(jobs: Table, blob: map<string, string>, prefix: string)
    ensures TableDone(jobs, jobs, [], blob, prefix) && StoreDone(jobs, [], blob, blob, prefix)
  {
  }

  /** The finished jobs determine the table and the store. */
  lemma TableDetermined(jobs: Table, a: Table, b: Table, done: seq<Uuid>, blob: map<string, string>, prefix: string)
    requires TableDone(jobs, a, done, blob, prefix) && TableDone(jobs, b, done, blob, prefix)
    ensures a == b
  {
    hide Finished;
  }

  lemma StoreDetermined(jobs: Table, done: seq<Uuid>, blob: map<string, string>, a: map<string, string>,
          b: map<string, string>, prefix: string)
    requires AllQueued(jobs, done) && StoreDone(jobs, done, blob, a, prefix) && StoreDone(jobs, done, blob, b, prefix)
    ensures a == b
  {
    hide Outcome, ExportObjectKey, NormalizeKey;
    forall k ensures (k in a <==> k in b) && (k in a && k in b ==> a[k] == b[k]) {
      if NotExported(jobs, done, blob, prefix, k) {
        assert k in blob.Keys + a.Keys || k !in a;
      } else {
        var id :| id in done && Outcome(blob, jobs[id].query).Some? && StoredKey(prefix, id, jobs[id].query) == Some(k);
        assert Fetch(a, ExportObjectKey(prefix, jobs[id].query.org, id))
            == Fetch(b, ExportObjectKey(prefix, jobs[id].query.org, id));
      }
    }
  }

  /** What ProcessQueued promises of its table and its store, some run of the service does with that one
      worker: if it returns, the run ends with the worker idle; if it hangs, with the worker in the middle
      of the job it hangs in. */
  lemma QueueRefines(events: seq<Event>, jobs: Table, now: Table, claimed: seq<Uuid>, hung: bool,
          blob: map<string, string>,
          held: map<string, string>, spills: set<Uuid>, w: nat, prefix: string, maxRows: nat)
    returns (longer: seq<Event>)
    requires Valid(events, prefix, maxRows) && Related(jobs, blob, After(events, prefix, maxRows), w)
    requires FreshlyQueued(jobs) && ExportJobs.Plain(blob)
    requires QueueDone(jobs, now, claimed, hung, blob, held, prefix, spills)
    ensures Valid(longer, prefix, maxRows)
    ensures var t := After(longer, prefix, maxRows);
            && SameTable(now, t) && t.archive.blob == held
            && (if hung then PhaseOf(t, w).Merging? && PhaseOf(t, w).job == claimed[|claimed| - 1]
                else PhaseOf(t, w).Idle?)
  {
    hide Valid, After, Outcome, Unsafe, ExportJobs.Plain, StoreDone, Finished, MatchingKeys, TableDone, Related,
      SameTable, OldestFirst, YoungerLeft, Hangs, NoRepeats, QueueDone;
    var done := Ended(claimed, hung);
    DoneFacts(jobs, now, claimed, hung, blob, held, prefix, spills);
    var later, stored;
    longer, later, stored := JobsRun(events, jobs, done, blob, w, prefix, maxRows);
    var t := After(longer, prefix, maxRows);
    StoreDetermined(jobs, done, blob, stored, held, prefix);
    if hung {
      var last := claimed[|claimed| - 1];
      TableDetermined(jobs, later, now[last := jobs[last]], done, blob, prefix);
      QueuedHere(jobs, now, last, held, t, w);
      longer := StartRuns(longer, t, w, last, prefix, maxRows);
      SameHung(jobs, now, last, held, t, After(longer, prefix, maxRows), w);
    } else {
      TableDetermined(jobs, later, now, done, blob, prefix);
      RelatedFacts(now, held, t, w);
    }
  }

  lemma RelatedFacts(jobs: Table, blob: map<string, string>, s: World, w: nat)
    requires Related(jobs, blob, s, w)
    ensures SameTable(jobs, s) && s.archive.blob == blob && PhaseOf(s, w).Idle?
  {
    hide SameTable;
  }

  /** What the proof uses of QueueDone. */
  lemma DoneFacts(jobs: Table, now: Table, claimed: seq<Uuid>, hung: bool, blob: map<string, string>,
          held: map<string, string>, prefix: string, spills: set<Uuid>)
    requires QueueDone(jobs, now, claimed, hung, blob, held, prefix, spills)
    ensures var done := Ended(claimed, hung);
            && AllQueued(jobs, done) && NoRepeats(done) && StoreDone(jobs, done, blob, held, prefix)
            && (forall i :: 0 <= i < |done| && Outcome(blob, jobs[done[i]].query).Some? ==> !Unsafe(prefix))
            && (!hung ==> TableDone(jobs, now, done, blob, prefix))
    ensures hung ==>
              claimed != [] &&
              var last := claimed[|claimed| - 1];
              && last in QueuedIds(jobs) && last in now && now[last] == jobs[last].(status := Running)
              && TableDone(jobs, now[last := jobs[last]], Ended(claimed, hung), blob, prefix)
  {
    hide Outcome, Unsafe, Finished, StoreDone, TableDone, OldestFirst, YoungerLeft;
  }

  lemma QueuedHere(jobs: Table, now: Table, last: Uuid, held: map<string, string>, s: World, w: nat)
    requires FreshlyQueued(jobs) && last in QueuedIds(jobs) && last in now
    requires Related(now[last := jobs[last]], held, s, w)
    ensures PhaseOf(s, w).Idle? && last in s.jobs && s.jobs[last].status == Queued && s.jobs[last].key == ""
    ensures s.archive.blob == held
  {
  }

  lemma SameHung(jobs: Table, now: Table, last: Uuid, held: map<string, string>, s: World, t: World, w: nat)
    requires FreshlyQueued(jobs) && last in QueuedIds(jobs) && last in now
    requires Related(now[last := jobs[last]], held, s, w)
    requires now[last] == jobs[last].(status := Running) && Apart(s, t, last, w)
    requires t.jobs[last].status == Running && t.jobs[last].key == ""
    ensures SameTable(now, t)
  {
    hide SameTable, IsNumber, IsUuid;
    var before := now[last := jobs[last]];
    QueryKept(before, s, t, last, w);
    TableFollows(before, s, t, last, w, now[last]);
    assert before[last := now[last]] == now;
  }
}
