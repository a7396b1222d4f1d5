/** The whole pipeline under concurrency: the archive writer, the export job table and any number of
    export workers, interleaved at the granularity of single store and table operations. */
module Service {
  import opened Text
  import opened Telemetry
  import opened Keys
  import opened Paths
  import opened Csv
  import opened Merge
  import opened Archive

  datatype Status = Queued | Running | Succeeded | Failed

  /** A row of export_jobs. claimer, claims and listed are history: the worker that claimed it, how often
      it was claimed, and how many archive objects were stored when its keys were listed. */
  datatype Job = Job(query: Query, status: Status, key: string, claimer: Option<nat>, claims: nat, listed: nat)

  /** Where a worker is in ProcessQueued and process. */
  datatype Phase =
    | Idle
    | Claimed(job: Uuid)
    | Merging(job: Uuid, keys: seq<string>, pos: nat, rows: seq<Row>)
    | Written(job: Uuid)
    | Failing(job: Uuid)

  datatype World = World(archive: Archive.State, jobs: map<Uuid, Job>, workers: map<nat, Phase>)

  const START: World := World(Archive.INIT, map[], map[])

  datatype Event =
    | Write(a: Archive.Action)                  // a step of the archive writer
    | Create(id: Uuid, q: Query)
    | Claim(w: nat, id: Uuid)                   // ClaimNextExportJob answers this queued job
    | List(w: nat)                              // ListMatching
    | Read(w: nat)                              // one appendObject
    | PutExport(w: nat)                         // Put stored the whole merged file
    | Abort(w: nat, left: Option<string>)       // some step failed; a failing Put may leave any text behind
    | FinishOk(w: nat, applied: bool)           // FinishExportJob(succeeded); it errs when it was not applied
    | FinishFailed(w: nat, applied: bool)       // FinishExportJob(failed); its error is ignored
    | Crash(w: nat, left: Option<string>)       // the process dies; a Put under way may leave any text behind

  function PhaseOf(s: World, w: nat): Phase { if w in s.workers then s.workers[w] else Idle }

  /** The key a job's export is stored under. */
  function StoredKey(prefix: string, job: Uuid, q: Query): Option<string> {
    NormalizeKey(ExportObjectKey(prefix, q.org, job))
  }

  predicate Busy(p: Phase) { !p.Idle? }

  ghost predicate Can(s: World, e: Event, prefix: string) {
    match e
    case Write(a) => Archive.Enabled(s.archive, a) && !a.Foreign?
    case Create(id, q) => id !in s.jobs
    case Claim(w, id) => PhaseOf(s, w).Idle? && id in s.jobs && s.jobs[id].status == Queued
    case List(w) => PhaseOf(s, w).Claimed? && PhaseOf(s, w).job in s.jobs
    case Read(w) =>
      var p := PhaseOf(s, w);
      p.Merging? && p.job in s.jobs && p.pos < |p.keys|
          && RowsAt(s.archive.blob, p.keys[p.pos], s.jobs[p.job].query).Some?
    case PutExport(w) =>
      var p := PhaseOf(s, w);
      p.Merging? && p.job in s.jobs && p.pos == |p.keys| && NonEmptyRows(p.rows)
          && StoredKey(prefix, p.job, s.jobs[p.job].query).Some?
    case Abort(w, left) =>
      var p := PhaseOf(s, w);
      (p.Claimed? || p.Merging?) && p.job in s.jobs
      && (left.Some? ==> p.Merging? && StoredKey(prefix, p.job, s.jobs[p.job].query).Some?)
    case Crash(w, left) =>
      var p := PhaseOf(s, w);
      Busy(p) && p.job in s.jobs && (left.Some? ==> p.Merging? && StoredKey(prefix, p.job, s.jobs[p.job].query).Some?)
    case FinishOk(w, applied) => PhaseOf(s, w).Written? && PhaseOf(s, w).job in s.jobs
    case FinishFailed(w, applied) => PhaseOf(s, w).Failing? && PhaseOf(s, w).job in s.jobs
  }

  function Stores(a: Archive.State, key: string, text: string): Archive.State { a.(blob := a.blob[key := text]) }

  ghost function Do(s: World, e: Event, prefix: string, maxRows: nat): World
    requires Can(s, e, prefix)
  {
    match e
    case Write(a) => s.(archive := Archive.Apply(s.archive, a, maxRows))
    case Create(id, q) => s.(jobs := s.jobs[id := Job(q, Queued, "", None, 0, 0)])
    case Claim(w, id) =>
      s.(jobs := s.jobs[id := s.jobs[id].(status := Running, claimer := Some(w), claims := s.jobs[id].claims + 1)],
         workers := s.workers[w := Claimed(id)])
    case List(w) =>
      var id := PhaseOf(s, w).job;
      s.(jobs := s.jobs[id := s.jobs[id].(listed := |s.archive.puts|)],
         workers := s.workers[w := Merging(id, MatchingKeys(s.archive.blob, s.jobs[id].query), 0, [])])
    case Read(w) =>
      var p := PhaseOf(s, w);
      s.(workers := s.workers[w := p.(
        pos := p.pos + 1,
        rows := p.rows + RowsAt(s.archive.blob, p.keys[p.pos], s.jobs[p.job].query).value)])
    case PutExport(w) =>
      var p := PhaseOf(s, w);
      s.(archive := Stores(s.archive, StoredKey(prefix, p.job, s.jobs[p.job].query).value, FileText(p.rows)),
         workers := s.workers[w := Written(p.job)])
    case Abort(w, left) =>
      var p := PhaseOf(s, w);
      var t := s.(workers := s.workers[w := Failing(p.job)]);
      if left.Some? then t.(archive := Stores(s.archive, StoredKey(prefix, p.job, s.jobs[p.job].query).value,
          left.value)) else t
    case Crash(w, left) =>
      var p := PhaseOf(s, w);
      var t := s.(workers := s.workers[w := Idle]);
      if left.Some? then t.(archive := Stores(s.archive, StoredKey(prefix, p.job, s.jobs[p.job].query).value,
          left.value)) else t
    case FinishOk(w, applied) =>
      var id := PhaseOf(s, w).job;
      if applied then
        s.(jobs := s.jobs[id := s.jobs[id].(status := Succeeded,
            key := ExportObjectKey(prefix, s.jobs[id].query.org, id))],
           workers := s.workers[w := Idle])
      else s.(workers := s.workers[w := Failing(id)])
    case FinishFailed(w, applied) =>
      var id := PhaseOf(s, w).job;
      var t := s.(workers := s.workers[w := Idle]);
      if applied then t.(jobs := s.jobs[id := s.jobs[id].(status := Failed, key := "")]) else t
  }

  ghost predicate Valid(events: seq<Event>, prefix: string, maxRows: nat)
    decreases |events|, 0
  {
    events == [] || (Valid(events[..|events| - 1], prefix, maxRows)
                     && Can(After(events[..|events| - 1], prefix, maxRows), events[|events| - 1], prefix))
  }

  ghost function After(events: seq<Event>, prefix: string, maxRows: nat): World
    requires Valid(events, prefix, maxRows)
    decreases |events|, 1
  {
    if events == [] then START
    else Do(After(events[..|events| - 1], prefix, maxRows), events[|events| - 1], prefix, maxRows)
  }

  /* ---------- the job protocol ---------- */

  predicate Held(s: World, w: nat) {
    Busy(PhaseOf(s, w)) ==>
      var id := PhaseOf(s, w).job; id in s.jobs && s.jobs[id].status == Running && s.jobs[id].claimer == Some(w)
  }

  predicate JobOk(j: Job) {
    if j.status == Queued then j.claims == 0 && j.claimer == None else j.claims == 1 && j.claimer.Some?
  }

  ghost predicate Protocol(s: World) {
    && (forall w :: w in s.workers ==> Held(s, w))
    && (forall id :: id in s.jobs ==> JobOk(s.jobs[id]))
  }

  lemma ProtocolStep(s: World, e: Event, prefix: string, maxRows: nat)
    requires Protocol(s) && Can(s, e, prefix)
    ensures Protocol(Do(s, e, prefix, maxRows))
  {
    hide Archive.Apply, Archive.Enabled, MatchingKeys, RowsAt, StoredKey, FileText, Stores, ExportObjectKey,
      NonEmptyRows, IsNumber, IsUuid;
    var t := Do(s, e, prefix, maxRows);
    forall w | w in t.workers ensures Held(t, w) {
      if w in s.workers { assert Held(s, w); }
    }
  }

  /** One step of a job's life. */
  predicate Moves(j: Job, k: Job, e: Event) {
    || (k.status == j.status && k.claimer == j.claimer && k.claims == j.claims && k.key == j.key)
    || (e.Claim? && j.status == Queued && k.status == Running && k.claimer == Some(e.w) && j.claims == 0
        && k.claims == 1)
    || ((e.FinishOk? || e.FinishFailed?) && j.status == Running && j.claimer == Some(e.w) && k.claimer == j.claimer
        && k.claims == 1
        && k.status == if e.FinishOk? then Succeeded else Failed)
  }

  /** With any number of workers every job goes from queued to running to one terminal status and no
      further, is claimed at most once, and is finished only by the worker that claimed it. */
  lemma JobLife(events: seq<Event>, prefix: string, maxRows: nat, e: Event, id: Uuid)
    requires Valid(events + [e], prefix, maxRows) && Valid(events, prefix, maxRows)
    requires id in After(events, prefix, maxRows).jobs
    ensures var s, t := After(events, prefix, maxRows), After(events + [e], prefix, maxRows);
            id in t.jobs && Moves(s.jobs[id], t.jobs[id], e) && JobOk(t.jobs[id])
                && t.jobs[id].query == s.jobs[id].query
  {
    hide Archive.Apply, Archive.Enabled, MatchingKeys, RowsAt, StoredKey, FileText, Stores, ExportObjectKey,
      NonEmptyRows, IsNumber, IsUuid;
    assert (events + [e])[..|events|] == events;
    ProtocolRun(events, prefix, maxRows);
    var s := After(events, prefix, maxRows);
    ProtocolStep(s, e, prefix, maxRows);
    if e.FinishOk? || e.FinishFailed? { assert Held(s, e.w); }
  }

  lemma {:induction false} ProtocolRun(events: seq<Event>, prefix: string, maxRows: nat)
    requires Valid(events, prefix, maxRows)
    ensures Protocol(After(events, prefix, maxRows))
  {
    hide Can, Do, Protocol;
    if events == [] {
      StartProtocol();
    } else {
      ProtocolRun(events[..|events| - 1], prefix, maxRows);
      ProtocolStep(After(events[..|events| - 1], prefix, maxRows), events[|events| - 1], prefix, maxRows);
    }
  }

  lemma StartProtocol()
    ensures Protocol(START)
  {
  }

  /** No two workers hold one job. */
  lemma OneHolder(events: seq<Event>, prefix: string, maxRows: nat, v: nat, w: nat)
    requires Valid(events, prefix, maxRows)
    requires var s := After(events, prefix, maxRows);
             Busy(PhaseOf(s, v)) && Busy(PhaseOf(s, w)) && PhaseOf(s, v).job == PhaseOf(s, w).job
    ensures v == w
  {
    ProtocolRun(events, prefix, maxRows);
    var s := After(events, prefix, maxRows);
    assert Held(s, v) && Held(s, w);
  }

  predicate Orphan(s: World, id: Uuid) {
    id in s.jobs && s.jobs[id].status == Running && forall w :: w in s.workers && Busy(s.workers[w]) ==>
        s.workers[w].job != id
  }

  /** A running job that lost its worker, as when both Finish calls err or the process dies, runs forever. */
  lemma OrphanForever(s: World, e: Event, prefix: string, maxRows: nat, id: Uuid)
    requires Can(s, e, prefix) && Orphan(s, id)
    ensures Orphan(Do(s, e, prefix, maxRows), id)
  {
    hide Archive.Apply, Archive.Enabled, MatchingKeys, RowsAt, StoredKey, FileText, Stores, ExportObjectKey,
      NonEmptyRows;
    var t := Do(s, e, prefix, maxRows);
    forall w | w in t.workers && Busy(t.workers[w]) ensures t.workers[w].job != id {
      if w in s.workers { assert Busy(s.workers[w]) ==> s.workers[w].job != id; }
    }
  }

  lemma Extends(events: seq<Event>, prefix: string, maxRows: nat, e: Event)
    requires Valid(events, prefix, maxRows) && Can(After(events, prefix, maxRows), e, prefix)
    ensures Valid(events + [e], prefix, maxRows)
    ensures After(events + [e], prefix, maxRows) == Do(After(events, prefix, maxRows), e, prefix, maxRows)
  {
    hide Can, Do;
    assert (events + [e])[..|events|] == events;
  }

  /** Such a job can be reached: its merge fails, and so does the call that would record the failure. */
  lemma OrphanReachable(prefix: string, maxRows: nat, id: Uuid, q: Query) returns (events: seq<Event>)
    ensures Valid(events, prefix, maxRows) && Orphan(After(events, prefix, maxRows), id)
  {
    hide Valid, After, Archive.Apply, Archive.Enabled, MatchingKeys, RowsAt, StoredKey, FileText, ExportObjectKey,
      NonEmptyRows, IsNumber, IsUuid;
    StartsEmpty(prefix, maxRows);
    var a := Job(q, Queued, "", None, 0, 0);
    var b := a.(status := Running, claimer := Some(0), claims := 1);
    Extends([], prefix, maxRows, Create(id, q));
    events := [] + [Create(id, q)];
    assert After(events, prefix, maxRows) == World(Archive.INIT, map[id := a], map[]);
    Extends(events, prefix, maxRows, Claim(0, id));
    events := events + [Claim(0, id)];
    assert After(events, prefix, maxRows) == World(Archive.INIT, map[id := b], map[0 := Claimed(id)]);
    Extends(events, prefix, maxRows, Abort(0, None));
    events := events + [Abort(0, None)];
    assert After(events, prefix, maxRows) == World(Archive.INIT, map[id := b], map[0 := Failing(id)]);
    Extends(events, prefix, maxRows, FinishFailed(0, false));
    events := events + [FinishFailed(0, false)];
    assert After(events, prefix, maxRows) == World(Archive.INIT, map[id := b], map[0 := Idle]);
  }

  lemma StartsEmpty(prefix: string, maxRows: nat)
    ensures Valid([], prefix, maxRows) && After([], prefix, maxRows) == START
  {
  }

  lemma {:induction false} Prefix(events: seq<Event>, prefix: string, maxRows: nat, n: nat)
    requires Valid(events, prefix, maxRows) && n <= |events|
    ensures Valid(events[..n], prefix, maxRows)
    decreases |events|
  {
    hide Can;
    if n < |events| {
      var front := events[..|events| - 1];
      Prefix(front, prefix, maxRows, n);
      assert front[..n] == events[..n];
    } else {
      assert events[..n] == events;
    }
  }

  /** The call that should record that the job failed is not applied, or the job's worker dies. */
  ghost predicate LosesJob(s: World, e: Event, id: Uuid) {
    ((e.FinishFailed? && !e.applied) || e.Crash?) && Busy(PhaseOf(s, e.w)) && PhaseOf(s, e.w).job == id
  }

  ghost predicate LostAt(events: seq<Event>, prefix: string, maxRows: nat, n: nat, id: Uuid)
    requires Valid(events, prefix, maxRows)
  {
    n < |events| && (Prefix(events, prefix, maxRows, n); LosesJob(After(events[..n], prefix, maxRows), events[n], id))
  }

  lemma LosingOrphans(s: World, e: Event, prefix: string, maxRows: nat, id: Uuid)
    requires Protocol(s) && Can(s, e, prefix) && LosesJob(s, e, id)
    ensures Orphan(Do(s, e, prefix, maxRows), id)
  {
    var t := Do(s, e, prefix, maxRows);
    assert Held(s, e.w);
    forall w | w in t.workers && Busy(t.workers[w]) ensures t.workers[w].job != id { assert Held(s, w); }
  }

  /** Nothing else makes an orphan. */
  lemma OrphanStep(s: World, e: Event, prefix: string, maxRows: nat, id: Uuid)
    requires Can(s, e, prefix) && Orphan(Do(s, e, prefix, maxRows), id)
    ensures Orphan(s, id) || LosesJob(s, e, id)
  {
    hide Archive.Apply, Archive.Enabled, MatchingKeys, RowsAt, StoredKey, FileText, Stores, ExportObjectKey,
      NonEmptyRows;
    var t := Do(s, e, prefix, maxRows);
    if e.Claim? { assert t.workers[e.w].job == e.id && Busy(t.workers[e.w]); }
    if id in s.jobs && s.jobs[id].status == Running {
      forall w | w in s.workers && Busy(s.workers[w]) && s.workers[w].job == id ensures LosesJob(s, e, id) {
        assert w in t.workers;
      }
    }
  }

  /** A job is orphaned exactly when, at some point of the run, the call that should record its failure was
      not applied or its worker died. So as long as neither happens no job is left running without a worker. */
  lemma {:induction false} OrphanExactly(events: seq<Event>, prefix: string, maxRows: nat, id: Uuid)
    requires Valid(events, prefix, maxRows)
    ensures Orphan(After(events, prefix, maxRows), id) <==> exists n :: LostAt(events, prefix, maxRows, n, id)
  {
    hide Can, Do, Orphan, LosesJob, Protocol;
    if events == [] {
      NoOrphan(id);
    } else {
      var front, e := events[..|events| - 1], events[|events| - 1];
      var s := After(front, prefix, maxRows);
      OrphanExactly(front, prefix, maxRows, id);
      ProtocolRun(front, prefix, maxRows);
      forall n: nat | n < |front|
        ensures LostAt(events, prefix, maxRows, n, id) <==> LostAt(front, prefix, maxRows, n, id)
      {
        assert front[..n] == events[..n];
      }
      assert LostAt(events, prefix, maxRows, |front|, id) <==> LosesJob(s, e, id);
      if Orphan(s, id) { OrphanForever(s, e, prefix, maxRows, id); }
      if LosesJob(s, e, id) { LosingOrphans(s, e, prefix, maxRows, id); }
      if Orphan(After(events, prefix, maxRows), id) { OrphanStep(s, e, prefix, maxRows, id); }
    }
  }

  lemma NoOrphan(id: Uuid)
    ensures !Orphan(START, id)
  {
  }
}
