/** The archive writer under concurrency: any number of handlers and timed flushes interleave at the
    granularity of the writer's lock sections and of Put calls. */
module Archive {
  import opened Text
  import opened Telemetry
  import opened Keys
  import opened Paths
  import opened Storage
  import opened Csv
  import opened Merge
  import opened Exports
  import opened Buffer

  /** An accepted record and its number in arrival order. The number is history: it tells equal rows apart. */
  datatype Item = Item(no: nat, rec: Record)

  /** A flush between its lock sections: the rows it holds, and whether its Put has failed. */
  datatype Flight = Flight(part: string, items: seq<Item>, failed: bool)

  /** An archive object some Put stored, and whether that Put reported success. */
  datatype Put = Put(id: Uuid, part: string, items: seq<Item>, acked: bool)

  /** parts, flights and blob are the system; the rest is history: the accepted records in order, the
      stored objects in order, the overflow drops, the rows stored by a Put that then failed, the file ids used. */
  datatype State = State(
    parts: Parts<Item>, flights: map<Uuid, Flight>, blob: map<string, string>,
    log: seq<Record>, puts: seq<Put>, dropped: seq<Item>, duplicated: seq<Item>, ids: set<Uuid>)

  const INIT: State := State(map[], map[], map[], [], [], [], [], {})

  datatype Action =
    | Accept(rec: Record)              // HandleRecord, first lock section
    | Take(part: string, id: Uuid)     // flushPartition, lock section
    | PutOk(id: Uuid)
    | PutErr(id: Uuid, stored: bool)   // a failing Put may have stored its object
    | Requeue(id: Uuid)
    | Foreign(key: string, text: string) // a Put of something else, such as an export

  /** Keys no archive file can have: their last folder is a UUID. */
  predicate ForeignKey(key: string) {
    var p := Split(key, '/');
    |p| >= 2 && |p[|p| - 2]| == 36
  }

  predicate Enabled(s: State, a: Action) {
    match a
    case Accept(rec) => Accepted(rec)
    case Take(part, id) => Buffered(s.parts, part) != [] && id !in s.ids
    case PutOk(id) => id in s.flights && !s.flights[id].failed && FileKey(s.flights[id].part, id).Some?
    case PutErr(id, stored) => id in s.flights && !s.flights[id].failed
        && (stored ==> FileKey(s.flights[id].part, id).Some?)
    case Requeue(id) => id in s.flights && s.flights[id].failed
    case Foreign(key, text) => ForeignKey(key)
  }

  function Recs(items: seq<Item>): (r: seq<Record>)
    ensures |r| == |items| && forall i :: 0 <= i < |r| ==> r[i] == items[i].rec
  {
    seq(|items|, i requires 0 <= i < |items| => items[i].rec)
  }

  function Stored(s: State, id: Uuid): map<string, string>
    requires id in s.flights && FileKey(s.flights[id].part, id).Some?
  {
    s.blob[FileKey(s.flights[id].part, id).value := FileText(Rows(Recs(s.flights[id].items)))]
  }

  function PutOf(s: State, id: Uuid, acked: bool): Put
    requires id in s.flights
  {
    Put(id, s.flights[id].part, s.flights[id].items, acked)
  }

  function Apply(s: State, a: Action, maxRows: nat): State
    requires Enabled(s, a)
  {
    match a
    case Accept(rec) =>
      var p, item := PartitionKey(rec), Item(|s.log|, rec);
      s.(parts := Appended(s.parts, p, item, maxRows),
         dropped := s.dropped + Overflow(Buffered(s.parts, p) + [item], maxRows),
         log := s.log + [rec])
    case Take(part, id) =>
      s.(parts := Taken(s.parts, part),
         flights := s.flights[id := Flight(part, s.parts[part], false)],
         ids := s.ids + {id})
    case PutOk(id) =>
      s.(blob := Stored(s, id),
         flights := s.flights - {id},
         puts := s.puts + [PutOf(s, id, true)])
    case PutErr(id, stored) =>
      var t := s.(flights := s.flights[id := s.flights[id].(failed := true)]);
      if stored then
        t.(blob := Stored(s, id),
           puts := s.puts + [PutOf(s, id, false)],
           duplicated := s.duplicated + s.flights[id].items)
      else t
    case Requeue(id) =>
      s.(parts := Requeued(s.parts, s.flights[id].part, s.flights[id].items), flights := s.flights - {id})
    case Foreign(key, text) => s.(blob := s.blob[key := text])
  }

  /** The rows LastN leaves out. */
  function Overflow<T>(rows: seq<T>, n: nat): seq<T> { rows[..|rows| - |LastN(rows, n)|] }

  /** A run: every action enabled where it happens. */
  predicate ValidRun(acts: seq<Action>, maxRows: nat)
    decreases |acts|, 0
  {
    acts == [] || (ValidRun(acts[..|acts| - 1], maxRows) && Enabled(End(acts[..|acts| - 1], maxRows), acts[|acts| - 1]))
  }

  function End(acts: seq<Action>, maxRows: nat): State
    requires ValidRun(acts, maxRows)
    decreases |acts|, 1
  {
    if acts == [] then INIT else Apply(End(acts[..|acts| - 1], maxRows), acts[|acts| - 1], maxRows)
  }

  /* ---------- where rows are ---------- */

  function LogItems(log: seq<Record>): (r: seq<Item>)
    ensures |r| == |log| && forall i :: 0 <= i < |r| ==> r[i] == Item(i, log[i])
  {
    seq(|log|, i requires 0 <= i < |log| => Item(i, log[i]))
  }

  function Flying(flights: map<Uuid, Flight>): map<Uuid, seq<Item>> {
    map id | id in flights :: flights[id].items
  }

  function Flat(puts: seq<Put>): seq<Item> {
    if puts == [] then [] else Flat(puts[..|puts| - 1]) + puts[|puts| - 1].items
  }

  /** All items of a map of rows. */
  ghost function Total<K(!new)>(m: map<K, seq<Item>>): multiset<Item>
    decreases m.Keys
  {
    if m == map[] then multiset{} else
      assert m.Keys != {};
      var k := Pick(m); multiset(m[k]) + Total(m - {k})
  }

  ghost function Pick<K(!new), V>(m: map<K, V>): K
    requires m.Keys != {}
    ensures Pick(m) in m
  {
    var k :| k in m; k
  }

  lemma {:induction false} TotalRemove<K(!new)>(m: map<K, seq<Item>>, k: K)
    requires k in m
    ensures Total(m) == multiset(m[k]) + Total(m - {k})
    decreases m.Keys
  {
    assert m != map[];
    var j := Pick(m);
    if j != k {
      TotalRemove(m - {j}, k);
      TotalRemove(m - {k}, j);
      assert m - {j} - {k} == m - {k} - {j};
    }
  }

  lemma TotalUpdate<K(!new)>(m: map<K, seq<Item>>, k: K, rows: seq<Item>)
    ensures Total(m[k := rows]) == multiset(rows) + Total(m - {k})
  {
    TotalRemove(m[k := rows], k);
    assert m[k := rows] - {k} == m - {k};
  }

  /** Total with a partition's buffer taken out, present or not. */
  lemma TotalWithout(m: Parts<Item>, p: string)
    ensures Total(m) == multiset(Buffered(m, p)) + Total(m - {p})
  {
    if p in m { TotalRemove(m, p); } else { assert m - {p} == m; }
  }

  /** The four places a row can be in. */
  ghost function Places(s: State): multiset<Item> {
    Total(s.parts) + Total(Flying(s.flights)) + multiset(Flat(s.puts)) + multiset(s.dropped)
  }

  /** Accepted rows, and once more each row a failing Put stored, are exactly the rows in the four places. */
  ghost predicate Conserved(s: State) {
    multiset(LogItems(s.log)) + multiset(s.duplicated) == Places(s)
  }

  lemma FlatAppend(puts: seq<Put>, p: Put)
    ensures Flat(puts + [p]) == Flat(puts) + p.items
  {
    assert (puts + [p])[..|puts|] == puts;
  }

  lemma AppendedTotal(parts: Parts<Item>, p: string, item: Item, n: nat)
    ensures Total(Appended(parts, p, item, n)) + multiset(Overflow(Buffered(parts, p) + [item], n))
            == Total(parts) + multiset{item}
  {
    var rows := Buffered(parts, p) + [item];
    TotalWithout(parts, p);
    TotalUpdate(parts, p, LastN(rows, n));
    assert rows == Overflow(rows, n) + LastN(rows, n);
    assert multiset(rows) == multiset(Overflow(rows, n)) + multiset(LastN(rows, n));
    assert multiset(rows) == multiset(Buffered(parts, p)) + multiset{item};
    Move(Total(parts - {p}), multiset(LastN(rows, n)), multiset(Overflow(rows, n)), multiset(Buffered(parts, p)),
        multiset{item});
  }

  lemma Move(rest: multiset<Item>, kept: multiset<Item>, over: multiset<Item>, old_: multiset<Item>, x: multiset<Item>)
    requires over + kept == old_ + x
    ensures kept + rest + over == old_ + rest + x
  {
    assert kept + rest + over == rest + (over + kept);
    assert old_ + rest + x == rest + (old_ + x);
  }

  lemma TakenTotal(parts: Parts<Item>, flights: map<Uuid, Flight>, p: string, id: Uuid)
    requires p in parts && id !in flights
    ensures Total(Taken(parts, p)) + Total(Flying(flights[id := Flight(p, parts[p], false)]))
            == Total(parts) + Total(Flying(flights))
  {
    hide Total, Flying;
    TotalRemove(parts, p);
    FlyingGrows(flights, p, parts[p], id);
  }

  lemma FlyingGrows(flights: map<Uuid, Flight>, p: string, rows: seq<Item>, id: Uuid)
    requires id !in flights
    ensures Total(Flying(flights[id := Flight(p, rows, false)])) == multiset(rows) + Total(Flying(flights))
  {
    hide Total;
    TotalUpdate(Flying(flights), id, rows);
    assert Flying(flights[id := Flight(p, rows, false)]) == Flying(flights)[id := rows];
    assert Flying(flights) - {id} == Flying(flights);
  }

  lemma LandedTotal(flights: map<Uuid, Flight>, id: Uuid)
    requires id in flights
    ensures Total(Flying(flights)) == multiset(flights[id].items) + Total(Flying(flights - {id}))
  {
    TotalRemove(Flying(flights), id);
    assert Flying(flights - {id}) == Flying(flights) - {id};
  }

  lemma RequeuedTotal(parts: Parts<Item>, p: string, rows: seq<Item>)
    ensures Total(Requeued(parts, p, rows)) == Total(parts) + multiset(rows)
  {
    TotalWithout(parts, p);
    TotalUpdate(parts, p, rows + Buffered(parts, p));
  }

  lemma AcceptConserves(s: State, rec: Record, maxRows: nat)
    requires Conserved(s) && Enabled(s, Accept(rec))
    ensures Conserved(Apply(s, Accept(rec), maxRows))
  {
    hide PartitionKey, Total, Flying, Appended, Overflow, Flat, LogItems, Accepted, Buffered, IsNumber, IsUuid;
    var t, k, x := Apply(s, Accept(rec), maxRows), PartitionKey(rec), Item(|s.log|, rec);
    var over := Overflow(Buffered(s.parts, k) + [x], maxRows);
    AppendedTotal(s.parts, k, x, maxRows);
    LogGrows(s.log, rec);
    TrimMoves(Total(t.parts), multiset(over), Total(s.parts), multiset{x}, Total(Flying(s.flights)),
              multiset(Flat(s.puts)), multiset(s.dropped));
    assert multiset(t.dropped) == multiset(s.dropped) + multiset(over);
    assert multiset(LogItems(s.log)) + multiset{x} + multiset(s.duplicated)
        == multiset(LogItems(s.log)) + multiset(s.duplicated) + multiset{x};
  }

  /** Take and Requeue move rows between the buffers and the flushes under way. */
  lemma MoveConserves(s: State, a: Action, maxRows: nat)
    requires Conserved(s) && Enabled(s, a) && (a.Take? || a.Requeue?) && s.flights.Keys <= s.ids
    ensures Conserved(Apply(s, a, maxRows))
  {
    hide Total, Flying, Requeued, Flat, LogItems, IsNumber, IsUuid;
    var t := Apply(s, a, maxRows);
    if a.Take? {
      TakenTotal(s.parts, s.flights, a.part, a.id);
    } else {
      LandedTotal(s.flights, a.id);
      RequeuedTotal(s.parts, s.flights[a.id].part, s.flights[a.id].items);
    }
    assert Total(t.parts) + Total(Flying(t.flights)) == Total(s.parts) + Total(Flying(s.flights));
  }

  /** A Put moves rows from a flush to the stored objects, or stores a copy of them, or does nothing. */
  lemma PutConserves(s: State, a: Action, maxRows: nat)
    requires Conserved(s) && Enabled(s, a) && (a.PutOk? || a.PutErr?)
    ensures Conserved(Apply(s, a, maxRows))
  {
    hide FileKey, Stored, Total, Flying, Flat, LogItems, IsNumber, IsUuid;
    var rows := multiset(s.flights[a.id].items);
    FlatAppend(s.puts, PutOf(s, a.id, a.PutOk?));
    if a.PutOk? {
      LandedTotal(s.flights, a.id);
      Swap(Total(s.parts), Total(Flying(s.flights - {a.id})), multiset(Flat(s.puts)), multiset(s.dropped), rows);
    } else {
      FailedFlying(s.flights, a.id);
      if a.stored {
        Grow(multiset(LogItems(s.log)), multiset(s.duplicated), Total(s.parts), Total(Flying(s.flights)),
             multiset(Flat(s.puts)), multiset(s.dropped), rows);
      }
    }
  }

  lemma Swap(b: multiset<Item>, f: multiset<Item>, p: multiset<Item>, e: multiset<Item>, x: multiset<Item>)
    ensures b + (x + f) + p + e == b + f + (p + x) + e
  {
  }

  lemma Grow(l: multiset<Item>, d: multiset<Item>, b: multiset<Item>, f: multiset<Item>, p: multiset<Item>,
          e: multiset<Item>, x: multiset<Item>)
    requires l + d == b + f + p + e
    ensures l + (d + x) == b + f + (p + x) + e
  {
    assert l + (d + x) == (l + d) + x && b + f + (p + x) + e == (b + f + p + e) + x;
  }

  lemma ForeignConserves(s: State, key: string, text: string, maxRows: nat)
    requires Conserved(s) && ForeignKey(key)
    ensures Conserved(Apply(s, Foreign(key, text), maxRows))
  {
    hide Total, Flying, Flat, LogItems, ForeignKey, IsNumber, IsUuid;
  }

  /** Every action keeps the conservation law. */
  lemma StepConserves(s: State, a: Action, maxRows: nat)
    requires Conserved(s) && Enabled(s, a) && s.flights.Keys <= s.ids
    ensures Conserved(Apply(s, a, maxRows))
  {
    hide Conserved, Apply, FileKey, ForeignKey, Accepted;
    match a
    case Accept(rec) => AcceptConserves(s, rec, maxRows);
    case Take(_, _) => MoveConserves(s, a, maxRows);
    case Requeue(_) => MoveConserves(s, a, maxRows);
    case Foreign(key, text) => ForeignConserves(s, key, text, maxRows);
    case _ => PutConserves(s, a, maxRows);
  }

  lemma TrimMoves(b': multiset<Item>, over: multiset<Item>, b: multiset<Item>, x: multiset<Item>,
          f: multiset<Item>, p: multiset<Item>, e: multiset<Item>)
    requires b' + over == b + x
    ensures b' + f + p + (e + over) == b + f + p + e + x
  {
    assert b' + f + p + (e + over) == (b' + over) + f + p + e;
  }

  lemma LogGrows(log: seq<Record>, rec: Record)
    ensures multiset(LogItems(log + [rec])) == multiset(LogItems(log)) + multiset{Item(|log|, rec)}
  {
    hide IsNumber, IsUuid;
    assert LogItems(log + [rec]) == LogItems(log) + [Item(|log|, rec)];
  }

  lemma FailedFlying(flights: map<Uuid, Flight>, id: Uuid)
    requires id in flights
    ensures Flying(flights[id := flights[id].(failed := true)]) == Flying(flights)
  {
  }

  /* ---------- the invariant ---------- */

  /** These rows are accepted records of partition p. */
  predicate Belong(items: seq<Item>, p: string, log: seq<Record>) {
    forall i :: 0 <= i < |items| ==>
      items[i].no < |log| && items[i].rec == log[items[i].no] && Accepted(items[i].rec)
          && PartitionKey(items[i].rec) == p
  }

  /** The archive objects that can be found again, by key. */
  function FilesOf(puts: seq<Put>): Files {
    if puts == [] then map[]
    else
      var f, p := FilesOf(puts[..|puts| - 1]), puts[|puts| - 1];
      if Findable(p) then f[FileKey(p.part, p.id).value := Recs(p.items)] else f
  }

  predicate Findable(p: Put) {
    FileKey(p.part, p.id).Some? && ParseObjectKey(FileKey(p.part, p.id).value).Some?
  }

  predicate PartsOk(parts: Parts<Item>, log: seq<Record>) {
    forall p :: p in parts ==> Belong(parts[p], p, log)
  }

  predicate FlightsOk(flights: map<Uuid, Flight>, ids: set<Uuid>, log: seq<Record>) {
    forall id :: id in flights ==>
      id in ids && flights[id].items != [] && Belong(flights[id].items, flights[id].part, log)
  }

  predicate PutOkay(put: Put, ids: set<Uuid>, flights: map<Uuid, Flight>, log: seq<Record>) {
    && put.id in ids && put.items != [] && Belong(put.items, put.part, log) && FileKey(put.part, put.id).Some?
    && (put.id in flights ==> flights[put.id].failed)
  }

  predicate PutsOk(puts: seq<Put>, ids: set<Uuid>, flights: map<Uuid, Flight>, log: seq<Record>) {
    forall i :: 0 <= i < |puts| ==> PutOkay(puts[i], ids, flights, log)
  }

  /** Each stored object went to a key no earlier object had. */
  predicate FreshKeys(puts: seq<Put>) {
    puts == [] || (FreshKeys(puts[..|puts| - 1]) &&
                   var p := puts[|puts| - 1];
                   Findable(p) ==> FileKey(p.part, p.id).value !in FilesOf(puts[..|puts| - 1]))
  }

  /** The object is in the store, with its rows and nothing else. */
  predicate StoredAt(put: Put, blob: map<string, string>) {
    var k := FileKey(put.part, put.id);
    k.Some? && k.value in blob && blob[k.value] == FileText(Rows(Recs(put.items)))
  }

  predicate AllStored(puts: seq<Put>, blob: map<string, string>) {
    forall i :: 0 <= i < |puts| ==> StoredAt(puts[i], blob)
  }

  /** No two objects were stored under one key. */
  predicate KeysDiffer(puts: seq<Put>) {
    forall i, j :: 0 <= i < j < |puts| ==> FileKey(puts[i].part, puts[i].id) != FileKey(puts[j].part, puts[j].id)
  }

  ghost predicate Inv(s: State) {
    && Conserved(s)
    && PartsOk(s.parts, s.log)
    && FlightsOk(s.flights, s.ids, s.log)
    && PutsOk(s.puts, s.ids, s.flights, s.log)
    && FreshKeys(s.puts)
    && Holds(s.blob, FilesOf(s.puts))
    && AllStored(s.puts, s.blob)
    && KeysDiffer(s.puts)
  }

  lemma FilesKeys(puts: seq<Put>, k: string)
    requires k in FilesOf(puts)
    ensures exists i :: 0 <= i < |puts| && FileKey(puts[i].part, puts[i].id) == Some(k)
  {
    hide FileKey, ParseObjectKey;
    var n := |puts| - 1;
    if k in FilesOf(puts[..n]) {
      FilesKeys(puts[..n], k);
    } else {
      assert FileKey(puts[n].part, puts[n].id) == Some(k);
    }
  }

  /** The key of a flush under way is that of no earlier object. */
  lemma NewKeys(s: State, id: Uuid)
    requires PutsOk(s.puts, s.ids, s.flights, s.log) && FlightsOk(s.flights, s.ids, s.log)
    requires id in s.flights && !s.flights[id].failed && FileKey(s.flights[id].part, id).Some?
    ensures forall i :: 0 <= i < |s.puts| ==> FileKey(s.puts[i].part, s.puts[i].id) != FileKey(s.flights[id].part, id)
  {
    hide FileKey, PartitionKey;
    var f := s.flights[id];
    forall i | 0 <= i < |s.puts| ensures FileKey(s.puts[i].part, s.puts[i].id) != FileKey(f.part, id) {
      var put := s.puts[i];
      assert PutOkay(put, s.ids, s.flights, s.log);
      if FileKey(put.part, put.id) == FileKey(f.part, id) {
        FileKeyInjective(f.items[0].rec, id, put.items[0].rec, put.id);
      }
    }
  }

  lemma NewKey(s: State, id: Uuid)
    requires PutsOk(s.puts, s.ids, s.flights, s.log) && FlightsOk(s.flights, s.ids, s.log)
    requires id in s.flights && !s.flights[id].failed && FileKey(s.flights[id].part, id).Some?
    ensures FileKey(s.flights[id].part, id).value !in FilesOf(s.puts)
  {
    hide FileKey, PutsOk, FlightsOk, FilesOf;
    NewKeys(s, id);
    var k := FileKey(s.flights[id].part, id).value;
    if k in FilesOf(s.puts) { FilesKeys(s.puts, k); }
  }

  /** One more object under a new key. */
  lemma StoredOneMore(puts: seq<Put>, blob: map<string, string>, put: Put)
    requires AllStored(puts, blob) && KeysDiffer(puts) && FileKey(put.part, put.id).Some?
    requires forall i :: 0 <= i < |puts| ==> FileKey(puts[i].part, puts[i].id) != FileKey(put.part, put.id)
    ensures AllStored(puts + [put], blob[FileKey(put.part, put.id).value := FileText(Rows(Recs(put.items)))])
    ensures KeysDiffer(puts + [put])
  {
    hide FileKey, FileText, Rows, Recs;
    var later := blob[FileKey(put.part, put.id).value := FileText(Rows(Recs(put.items)))];
    forall i | 0 <= i < |puts| + 1 ensures StoredAt((puts + [put])[i], later) {
      if i < |puts| { assert StoredAt(puts[i], blob); }
    }
  }

  /** An object under a foreign key replaces none of the archive's. */
  lemma StoredBesideForeign(s: State, key: string, text: string)
    requires PutsOk(s.puts, s.ids, s.flights, s.log) && AllStored(s.puts, s.blob) && ForeignKey(key)
    ensures AllStored(s.puts, s.blob[key := text])
  {
    hide FileKey, FileText, Rows, Recs, PartitionKey, Split;
    forall i | 0 <= i < |s.puts| ensures StoredAt(s.puts[i], s.blob[key := text]) {
      var put := s.puts[i];
      assert StoredAt(put, s.blob) && PutOkay(put, s.ids, s.flights, s.log);
      FileKeySegments(put.items[0].rec, put.id);
    }
  }

  lemma FilesAppend(puts: seq<Put>, put: Put)
    ensures FilesOf(puts + [put]) ==
            if Findable(put) then FilesOf(puts)[FileKey(put.part, put.id).value := Recs(put.items)] else FilesOf(puts)
  {
    hide FileKey, ParseObjectKey;
    assert (puts + [put])[..|puts|] == puts;
  }

  /** One more object under a key of its own. */
  lemma HoldsOneMore(blob: map<string, string>, files: Files, k: string, recs: seq<Record>)
    requires Holds(blob, files) && k !in files
    requires ParseObjectKey(k).Some? ==>
               NormalizeKey(k) == Some(k) && forall i :: 0 <= i < |recs| ==> KeyTells(k, recs[i])
    ensures Holds(blob[k := FileText(Rows(recs))], if ParseObjectKey(k).Some? then files[k := recs] else files)
  {
    hide ParseObjectKey, NormalizeKey, FileText, Rows, KeyTells;
  }

  /** A stored file keeps the store in the shape the export reads. */
  lemma HoldsAfterPut(s: State, id: Uuid, acked: bool)
    requires PutsOk(s.puts, s.ids, s.flights, s.log) && FlightsOk(s.flights, s.ids, s.log)
    requires Holds(s.blob, FilesOf(s.puts))
    requires id in s.flights && !s.flights[id].failed && FileKey(s.flights[id].part, id).Some?
    ensures Holds(Stored(s, id), FilesOf(s.puts + [PutOf(s, id, acked)]))
  {
    hide FileKey, ParseObjectKey, NormalizeKey, FileText, Rows, PartitionKey, KeyTells, Holds, FilesOf, PutsOk;
    var f, put := s.flights[id], PutOf(s, id, acked);
    var k := FileKey(f.part, id).value;
    NewKey(s, id);
    FilesAppend(s.puts, put);
    forall i | 0 <= i < |f.items|
      ensures ParseObjectKey(k).Some? ==> KeyTells(k, Recs(f.items)[i]) && NormalizeKey(k) == Some(k)
    {
      if ParseObjectKey(k).Some? { FoundFile(f.items[i].rec, id); }
    }
    assert f.items[0] == f.items[0];
    HoldsOneMore(s.blob, FilesOf(s.puts), k, Recs(f.items));
  }

  lemma FoundFile(rec: Record, id: Uuid)
    requires Accepted(rec) && FileKey(PartitionKey(rec), id).Some?
    requires ParseObjectKey(FileKey(PartitionKey(rec), id).value).Some?
    ensures var k := FileKey(PartitionKey(rec), id).value; KeyTells(k, rec) && NormalizeKey(k) == Some(k)
  {
    hide NormalizeKey, ParseObjectKey, PartitionKey, ObjectKey, Exportable;
    FileKeyParses(rec, id);
  }

  lemma BelongLater(items: seq<Item>, p: string, log: seq<Record>, rec: Record)
    requires Belong(items, p, log)
    ensures Belong(items, p, log + [rec])
  {
  }

  lemma InitInv()
    ensures Inv(INIT)
  {
    assert Flying(map[]) == map[];
  }

  lemma LaterOk(s: State, rec: Record)
    requires PartsOk(s.parts, s.log) && FlightsOk(s.flights, s.ids, s.log) && PutsOk(s.puts, s.ids, s.flights, s.log)
    ensures var l := s.log + [rec];
            PartsOk(s.parts, l) && FlightsOk(s.flights, s.ids, l) && PutsOk(s.puts, s.ids, s.flights, l)
  {
    hide FileKey, PartitionKey, Belong;
    var l := s.log + [rec];
    forall p | p in s.parts ensures Belong(s.parts[p], p, l) { BelongLater(s.parts[p], p, s.log, rec); }
    forall id | id in s.flights ensures Belong(s.flights[id].items, s.flights[id].part, l) {
      BelongLater(s.flights[id].items, s.flights[id].part, s.log, rec);
    }
    forall i | 0 <= i < |s.puts| ensures PutOkay(s.puts[i], s.ids, s.flights, l) {
      BelongLater(s.puts[i].items, s.puts[i].part, s.log, rec);
    }
  }

  lemma AppendedOk(parts: Parts<Item>, log: seq<Record>, rec: Record, n: nat)
    requires PartsOk(parts, log + [rec]) && Accepted(rec)
    ensures PartsOk(Appended(parts, PartitionKey(rec), Item(|log|, rec), n), log + [rec])
  {
    hide PartitionKey, Accepted;
    var p, item := PartitionKey(rec), Item(|log|, rec);
    assert Belong(Buffered(parts, p) + [item], p, log + [rec]);
  }

  lemma AcceptInv(s: State, rec: Record, maxRows: nat)
    requires Inv(s) && Accepted(rec)
    ensures Inv(Apply(s, Accept(rec), maxRows))
  {
    hide PartitionKey, FileKey, Holds, Conserved, FilesOf, PartsOk, FlightsOk, PutsOk, FreshKeys, Appended, Overflow,
      AllStored, KeysDiffer;
    AcceptIds(s);
    StepConserves(s, Accept(rec), maxRows);
    LaterOk(s, rec);
    AppendedOk(s.parts, s.log, rec, maxRows);
  }

  lemma AcceptIds(s: State)
    requires FlightsOk(s.flights, s.ids, s.log)
    ensures s.flights.Keys <= s.ids
  {
  }

  lemma PutsAfterPut(s: State, put: Put, flights: map<Uuid, Flight>)
    requires PutsOk(s.puts, s.ids, s.flights, s.log) && PutOkay(put, s.ids, flights, s.log)
    requires forall id :: id in flights ==> id in s.flights && (s.flights[id].failed ==> flights[id].failed)
    ensures PutsOk(s.puts + [put], s.ids, flights, s.log)
  {
    hide FileKey, Belong;
    forall i | 0 <= i < |s.puts| + 1 ensures PutOkay((s.puts + [put])[i], s.ids, flights, s.log) {
      if i < |s.puts| { assert PutOkay(s.puts[i], s.ids, s.flights, s.log); }
    }
  }

  lemma FreshAfterPut(puts: seq<Put>, put: Put)
    requires FreshKeys(puts) && FileKey(put.part, put.id).Some? && FileKey(put.part, put.id).value !in FilesOf(puts)
    ensures FreshKeys(puts + [put])
  {
    hide FileKey, ParseObjectKey, FilesOf;
    assert (puts + [put])[..|puts|] == puts;
  }

  lemma PutInv(s: State, a: Action, maxRows: nat)
    requires Inv(s) && Enabled(s, a) && (a.PutOk? || (a.PutErr? && a.stored))
    ensures Inv(Apply(s, a, maxRows))
  {
    hide FileKey, Holds, Conserved, FilesOf, Belong, ParseObjectKey, PutsOk, FreshKeys, PartsOk, AllStored, KeysDiffer,
      FileText, Rows, Recs;
    StepConserves(s, a, maxRows);
    var put := PutOf(s, a.id, a.PutOk?);
    HoldsAfterPut(s, a.id, a.PutOk?);
    NewKey(s, a.id);
    NewKeys(s, a.id);
    StoredOneMore(s.puts, s.blob, put);
    FreshAfterPut(s.puts, put);
    PutsAfterPut(s, put, Apply(s, a, maxRows).flights);
  }

  lemma RequeuedOk(parts: Parts<Item>, p: string, rows: seq<Item>, log: seq<Record>)
    requires PartsOk(parts, log) && Belong(rows, p, log)
    ensures PartsOk(Requeued(parts, p, rows), log)
  {
    hide PartitionKey, Accepted;
    assert Belong(rows + Buffered(parts, p), p, log);
  }

  lemma MoveInv(s: State, a: Action, maxRows: nat)
    requires Inv(s) && Enabled(s, a) && (a.Take? || a.Requeue? || (a.PutErr? && !a.stored))
    ensures Inv(Apply(s, a, maxRows))
  {
    hide FileKey, Holds, Conserved, FilesOf, Stored, PartitionKey, FreshKeys, AllStored, KeysDiffer, Belong, Requeued,
      IsNumber, IsUuid;
    StepConserves(s, a, maxRows);
    if a.Requeue? { RequeuedOk(s.parts, s.flights[a.id].part, s.flights[a.id].items, s.log); }
  }

  lemma ForeignInv(s: State, key: string, text: string, maxRows: nat)
    requires Inv(s) && ForeignKey(key)
    ensures Inv(Apply(s, Foreign(key, text), maxRows))
  {
    hide FileKey, Conserved, FilesOf, Stored, FileText, Rows, NormalizeKey, ForeignKey, PartsOk, FlightsOk, PutsOk,
      FreshKeys, ParseObjectKey, AllStored, KeysDiffer;
    AcceptIds(s);
    StepConserves(s, Foreign(key, text), maxRows);
    ForeignUnparsed(key);
    ForeignHolds(s.blob, FilesOf(s.puts), key, text);
    StoredBesideForeign(s, key, text);
  }

  lemma ForeignHolds(blob: map<string, string>, files: Files, key: string, text: string)
    requires Holds(blob, files) && ParseObjectKey(key) == None
    ensures Holds(blob[key := text], files)
  {
    hide FileText, Rows, NormalizeKey, ParseObjectKey;
  }

  lemma ForeignUnparsed(key: string)
    requires ForeignKey(key)
    ensures ParseObjectKey(key) == None
  {
  }

  lemma {:induction false} RunInv(acts: seq<Action>, maxRows: nat)
    requires ValidRun(acts, maxRows)
    ensures Inv(End(acts, maxRows))
  {
    hide Inv, Apply, Enabled;
    if acts == [] {
      InitInv();
    } else {
      var front, a := acts[..|acts| - 1], acts[|acts| - 1];
      RunInv(front, maxRows);
      StepInv(End(front, maxRows), a, maxRows);
    }
  }

  /** In every run, whatever its device and year, each object ever stored is in the store with exactly its rows,
      and no two were stored under one key: nothing in the archive is replaced. */
  lemma ObjectsStay(acts: seq<Action>, maxRows: nat, i: nat, j: nat)
    requires ValidRun(acts, maxRows) && i < |End(acts, maxRows).puts| && j < |End(acts, maxRows).puts|
    ensures StoredAt(End(acts, maxRows).puts[i], End(acts, maxRows).blob)
    ensures var a, b := End(acts, maxRows).puts[i], End(acts, maxRows).puts[j];
            i != j ==> FileKey(a.part, a.id) != FileKey(b.part, b.id)
  {
    hide Conserved, PartsOk, FlightsOk, PutsOk, FreshKeys, Holds, StoredAt, FileKey, End, ValidRun;
    RunInv(acts, maxRows);
  }

  /** Every action of every run keeps the invariant: conservation, each row under its own partition
      wherever it is, and each archive object readable under a key that names its rows' partition. */
  lemma StepInv(s: State, a: Action, maxRows: nat)
    requires Inv(s) && Enabled(s, a)
    ensures Inv(Apply(s, a, maxRows))
  {
    hide Inv, Apply;
    match a
    case Accept(rec) => AcceptInv(s, rec, maxRows);
    case PutOk(id) => PutInv(s, a, maxRows);
    case PutErr(id, stored) => if stored { PutInv(s, a, maxRows); } else { MoveInv(s, a, maxRows); }
    case Foreign(key, text) => ForeignInv(s, key, text, maxRows);
    case _ => MoveInv(s, a, maxRows);
  }

  /* ---------- what an export finds ---------- */

  /** The records among these that an export with this query can return. */
  function Visible(items: seq<Item>, q: Query): seq<Record> {
    if items == [] then []
    else
      var rec := items[0].rec;
      (if Exportable(rec) && Wanted(rec, q) then [rec] else []) + Visible(items[1..], q)
  }

  /** Of equal records all or none are visible. */
  lemma {:induction false} VisibleCount(items: seq<Item>, q: Query, rec: Record)
    ensures multiset(Visible(items, q))[rec]
            == if && Exportable(rec) && rec.org == q.org && q.from <= rec.ts <= q.to
                  && (q.deviceIds == [] || (rec.ident != "" && rec.ident in q.deviceIds))
               then multiset(Recs(items))[rec] else 0
  {
    hide Wanted, Exportable, IsNumber, IsUuid;
    if items != [] {
      VisibleCount(items[1..], q, rec);
      assert Recs(items) == [items[0].rec] + Recs(items[1..]);
    }
  }

  lemma {:induction false} VisibleConcat(a: seq<Item>, b: seq<Item>, q: Query)
    ensures Visible(a + b, q) == Visible(a, q) + Visible(b, q)
  {
    hide Exportable, Wanted;
    if a == [] {
      assert a + b == b;
    } else {
      assert (a + b)[1..] == a[1..] + b;
      VisibleConcat(a[1..], b, q);
    }
  }

  lemma VisibleRemove(b: seq<Item>, i: nat, q: Query)
    requires i < |b|
    ensures multiset(b[..i] + b[i + 1..]) == multiset(b) - multiset{b[i]}
    ensures multiset(Visible(b, q)) == multiset(Visible([b[i]], q)) + multiset(Visible(b[..i] + b[i + 1..], q))
  {
    hide Visible;
    assert b == b[..i] + ([b[i]] + b[i + 1..]);
    VisibleConcat(b[..i], [b[i]] + b[i + 1..], q);
    VisibleConcat([b[i]], b[i + 1..], q);
    VisibleConcat(b[..i], b[i + 1..], q);
  }

  lemma {:induction false} VisiblePermutes(a: seq<Item>, b: seq<Item>, q: Query)
    requires multiset(a) == multiset(b)
    ensures multiset(Visible(a, q)) == multiset(Visible(b, q))
    decreases |a|
  {
    hide Visible;
    if a == [] {
      assert |multiset(a)| == |multiset(b)|;
    } else {
      assert a[0] in multiset(b);
      var i :| 0 <= i < |b| && b[i] == a[0];
      VisibleRemove(a, 0, q);
      VisibleRemove(b, i, q);
      VisiblePermutes(a[..0] + a[1..], b[..i] + b[i + 1..], q);
    }
  }

  lemma {:induction false} ScanAgree(f: Files, g: Files, keys: seq<string>, q: Query)
    requires forall k :: k in keys ==> k in f && k in g && f[k] == g[k]
    ensures Scan(f, keys, q) == Scan(g, keys, q)
  {
    hide Chosen;
    if keys != [] { ScanAgree(f, g, keys[1..], q); }
  }

  lemma InsertUnfolds(k: string, keys: seq<string>)
    requires Ascending(keys) && k !in keys
    ensures Insert(k, keys) ==
            if keys == [] then [k] else if Less(k, keys[0]) then [k] + keys else [keys[0]] + Insert(k, keys[1..])
  {
    hide Less;
  }

  lemma ScanUnfolds(f: Files, k: string, keys: seq<string>, q: Query)
    requires k in f && forall x :: x in keys ==> x in f
    ensures forall x :: x in [k] + keys ==> x in f
    ensures Scan(f, [k] + keys, q) == Chosen(f[k], q) + Scan(f, keys, q)
  {
    hide Chosen;
    assert ([k] + keys)[1..] == keys;
  }

  lemma InsertMembers(f: Files, keys: seq<string>, k: string)
    requires Ascending(keys) && forall x :: x in keys ==> x in f
    ensures forall x :: x in Insert(k, keys) ==> x in f || x == k
  {
    hide Insert;
    forall x | x in Insert(k, keys) ensures x in f || x == k { assert x in Elements(Insert(k, keys)); }
  }

  lemma {:induction false} ScanInsert(f: Files, keys: seq<string>, k: string, recs: seq<Record>, q: Query)
    requires Ascending(keys) && k !in f && forall x :: x in keys ==> x in f
    ensures forall x :: x in Insert(k, keys) ==> x in f || x == k
    ensures multiset(Scan(f[k := recs], Insert(k, keys), q)) == multiset(Scan(f, keys, q)) + multiset(Chosen(recs, q))
  {
    hide Chosen, Less, Insert, Scan, IsNumber, IsUuid;
    var g := f[k := recs];
    InsertMembers(f, keys, k);
    ScanAgree(f, g, keys, q);
    InsertUnfolds(k, keys);
    if keys == [] {
      assert [k] == [k] + [];
      ScanUnfolds(g, k, [], q);
      NothingScanned(f, q);
      NothingScanned(g, q);
    } else if Less(k, keys[0]) {
      ScanUnfolds(g, k, keys, q);
    } else {
      ScanInsert(f, keys[1..], k, recs, q);
      assert keys == [keys[0]] + keys[1..];
      ScanUnfolds(f, keys[0], keys[1..], q);
      ScanUnfolds(g, keys[0], Insert(k, keys[1..]), q);
    }
  }

  lemma NothingScanned(f: Files, q: Query)
    ensures Scan(f, [], q) == []
  {
  }

  lemma FullScanInsert(f: Files, k: string, recs: seq<Record>, q: Query)
    requires k !in f
    ensures multiset(FullScan(f[k := recs], q)) == multiset(FullScan(f, q)) + multiset(Chosen(recs, q))
  {
    hide Chosen, Less, Listing, Insert, Scan, Ascending;
    var old_, g := Listing(f.Keys), f[k := recs];
    ListedKeys(f);
    ListedKeys(g);
    ScanInsert(f, old_, k, recs, q);
    assert g.Keys == f.Keys + {k};
    AscendingUnique(Listing(g.Keys), Insert(k, old_));
  }

  lemma {:induction false} VisibleChosen(items: seq<Item>, q: Query)
    requires forall i :: 0 <= i < |items| ==> Exportable(items[i].rec)
    ensures Visible(items, q) == Chosen(Recs(items), q)
  {
    hide Exportable, Wanted;
    if items != [] {
      VisibleChosen(items[1..], q);
      assert Recs(items)[1..] == Recs(items[1..]);
    }
  }

  lemma {:induction false} NoneVisible(items: seq<Item>, q: Query)
    requires forall i :: 0 <= i < |items| ==> !Exportable(items[i].rec)
    ensures Visible(items, q) == []
  {
    hide Exportable;
    if items != [] { NoneVisible(items[1..], q); }
  }

  /** The rows of one stored object are found by exports all or none. */
  lemma PutVisible(put: Put, log: seq<Record>, q: Query)
    requires Belong(put.items, put.part, log) && FileKey(put.part, put.id).Some?
    ensures Visible(put.items, q) == if Findable(put) then Chosen(Recs(put.items), q) else []
  {
    hide FileKey, ParseObjectKey, PartitionKey, Exportable, Chosen, Visible;
    forall i | 0 <= i < |put.items| ensures Exportable(put.items[i].rec) <==> Findable(put) {
      FileKeyParses(put.items[i].rec, put.id);
    }
    if Findable(put) { VisibleChosen(put.items, q); } else { NoneVisible(put.items, q); }
  }

  lemma {:induction false} StoredVisible(puts: seq<Put>, ids: set<Uuid>, flights: map<Uuid, Flight>,
          log: seq<Record>, q: Query)
    requires PutsOk(puts, ids, flights, log) && FreshKeys(puts)
    ensures multiset(FullScan(FilesOf(puts), q)) == multiset(Visible(Flat(puts), q))
  {
    hide FileKey, FullScan, Visible, Chosen, Belong, ParseObjectKey;
    if puts == [] {
      EmptyScan(q);
    } else {
      var front, p := puts[..|puts| - 1], puts[|puts| - 1];
      StoredVisible(front, ids, flights, log, q);
      PutVisible(p, log, q);
      VisibleConcat(Flat(front), p.items, q);
      if Findable(p) { FullScanInsert(FilesOf(front), FileKey(p.part, p.id).value, Recs(p.items), q); }
    }
  }

  lemma EmptyScan(q: Query)
    ensures FullScan(map[], q) == [] && Visible([], q) == []
  {
    var none: Files := map[];
    ListedKeys(none);
    NoElements(Listing(none.Keys));
  }

  /** No row is buffered or in flight. */
  predicate Quiescent(s: State) {
    (forall p :: p in s.parts ==> s.parts[p] == []) && s.flights == map[]
  }

  lemma {:induction false} EmptyTotal(parts: Parts<Item>)
    requires forall p :: p in parts ==> parts[p] == []
    ensures Total(parts) == multiset{}
    decreases parts.Keys
  {
    if parts != map[] { EmptyTotal(parts - {Pick(parts)}); }
  }

  /** How often an export holds a record: if it can be archived and the query asks for it, as often as it was accepted,
      and as often as a failing Put had stored it, less the times it was dropped; else never. */
  ghost predicate Accounted(s: State, q: Query, rec: Record) {
    var found := multiset(FullScan(FilesOf(s.puts), q))[rec];
    if && Exportable(rec) && rec.org == q.org && q.from <= rec.ts <= q.to
       && (q.deviceIds == [] || (rec.ident != "" && rec.ident in q.deviceIds))
    then found + multiset(Recs(s.dropped))[rec] == multiset(s.log)[rec] + multiset(Recs(s.duplicated))[rec]
    else found == 0
  }

  lemma Accounts(s: State, q: Query, rec: Record)
    requires multiset(FullScan(FilesOf(s.puts), q)) + multiset(Visible(s.dropped, q))
             == multiset(Visible(LogItems(s.log), q)) + multiset(Visible(s.duplicated, q))
    ensures Accounted(s, q, rec)
  {
    hide FullScan, FilesOf, Visible, Exportable, Recs, LogItems, IsNumber, IsUuid;
    VisibleCount(s.dropped, q, rec);
    VisibleCount(LogItems(s.log), q, rec);
    VisibleCount(s.duplicated, q, rec);
    LogRecs(s.log);
    var a, b := multiset(FullScan(FilesOf(s.puts), q)), multiset(Visible(s.dropped, q));
    var c, d := multiset(Visible(LogItems(s.log), q)), multiset(Visible(s.duplicated, q));
    assert (a + b)[rec] == (c + d)[rec];
  }

  lemma LogRecs(log: seq<Record>)
    ensures Recs(LogItems(log)) == log
  {
  }

  /** End to end. In every quiescent state of every run, an export returns exactly the accepted records it
      asks for, as a multiset: each once, once more for each time a failing Put had stored it, and once
      less when overflow dropped it. Records whose device or year cannot be archived are not seen. */
  lemma EndToEnd(acts: seq<Action>, maxRows: nat, q: Query)
    requires ValidRun(acts, maxRows) && Quiescent(End(acts, maxRows))
    ensures var s := End(acts, maxRows);
            && MergeRows(s.blob, MatchingKeys(s.blob, q), q) == Some(Rows(FullScan(FilesOf(s.puts), q)))
            && multiset(FullScan(FilesOf(s.puts), q)) + multiset(Visible(s.dropped, q))
               == multiset(Visible(LogItems(s.log), q)) + multiset(Visible(s.duplicated, q))
    ensures forall rec :: Accounted(End(acts, maxRows), q, rec)
  {
    hide Holds, PutsOk, FreshKeys, FullScan, Visible, FilesOf, Flat, MatchingKeys, MergeRows, LogItems, End, ValidRun;
    var s := End(acts, maxRows);
    RunInv(acts, maxRows);
    PruningLosesNothing(s.blob, FilesOf(s.puts), q);
    StoredVisible(s.puts, s.ids, s.flights, s.log, q);
    EmptyTotal(s.parts);
    assert Flying(s.flights) == map[];
    VisiblePermutes(Flat(s.puts) + s.dropped, LogItems(s.log) + s.duplicated, q);
    VisibleConcat(Flat(s.puts), s.dropped, q);
    VisibleConcat(LogItems(s.log), s.duplicated, q);
    forall rec ensures Accounted(s, q, rec) { Accounts(s, q, rec); }
  }

  /** With no drop, no Put that both fails and stores, and only exportable records accepted, an export
      holds exactly the accepted records that it asks for. */
  lemma ExactExport(acts: seq<Action>, maxRows: nat, q: Query)
    requires ValidRun(acts, maxRows) && Quiescent(End(acts, maxRows))
    requires End(acts, maxRows).dropped == [] && End(acts, maxRows).duplicated == []
    requires forall i :: 0 <= i < |End(acts, maxRows).log| ==> Exportable(End(acts, maxRows).log[i])
    ensures var s := End(acts, maxRows);
            && MergeRows(s.blob, MatchingKeys(s.blob, q), q) == Some(Rows(FullScan(FilesOf(s.puts), q)))
            && multiset(FullScan(FilesOf(s.puts), q)) == multiset(Chosen(s.log, q))
    ensures forall rec ::
              multiset(FullScan(FilesOf(End(acts, maxRows).puts), q))[rec]
              == if && rec.org == q.org && q.from <= rec.ts <= q.to
                    && (q.deviceIds == [] || (rec.ident != "" && rec.ident in q.deviceIds))
                 then multiset(End(acts, maxRows).log)[rec] else 0
  {
    hide FullScan, FilesOf, MatchingKeys, MergeRows, Exportable, Chosen, End, ValidRun, Quiescent, Visible;
    var s := End(acts, maxRows);
    EndToEnd(acts, maxRows, q);
    VisibleLog(s.log, q);
    EmptyScan(q);
    var none: seq<Record> := [];
    assert Visible(s.dropped, q) == none && Visible(s.duplicated, q) == none;
    var found, sent := multiset(FullScan(FilesOf(s.puts), q)), multiset(Visible(LogItems(s.log), q));
    assert found == found + multiset(none) && sent == sent + multiset(none);
    forall rec
      ensures found[rec]
              == if && rec.org == q.org && q.from <= rec.ts <= q.to
                    && (q.deviceIds == [] || (rec.ident != "" && rec.ident in q.deviceIds))
                 then multiset(s.log)[rec] else 0
    {
      ChosenCount(s.log, q, rec);
    }
  }

  lemma VisibleLog(log: seq<Record>, q: Query)
    requires forall i :: 0 <= i < |log| ==> Exportable(log[i])
    ensures Visible(LogItems(log), q) == Chosen(log, q)
  {
    hide Exportable, Chosen, Visible;
    VisibleChosen(LogItems(log), q);
    assert Recs(LogItems(log)) == log;
  }

  /** Without a Put that fails and stores, every accepted row is in exactly one place. */
  lemma ExactlyOnce(acts: seq<Action>, maxRows: nat, i: nat)
    requires ValidRun(acts, maxRows) && End(acts, maxRows).duplicated == [] && i < |End(acts, maxRows).log|
    ensures var s, x := End(acts, maxRows), Item(i, End(acts, maxRows).log[i]);
            Total(s.parts)[x] + Total(Flying(s.flights))[x] + multiset(Flat(s.puts))[x] + multiset(s.dropped)[x] == 1
  {
    hide Holds, PutsOk, FreshKeys, FilesOf, Flat, Total, End, ValidRun, LogItems, PartsOk, FlightsOk, Flying;
    RunInv(acts, maxRows);
    var s := End(acts, maxRows);
    NumberedOnce(s.log, i);
    var x := Item(i, s.log[i]);
    assert Places(s)[x] == multiset(LogItems(s.log))[x] + multiset(s.duplicated)[x];
  }

  lemma {:induction false} NumberedOnce(log: seq<Record>, i: nat)
    requires i < |log|
    ensures multiset(LogItems(log))[Item(i, log[i])] == 1
  {
    var front := log[..|log| - 1];
    assert log == front + [log[|log| - 1]];
    LogGrows(front, log[|log| - 1]);
    if i < |front| { NumberedOnce(front, i); } else {
      assert Item(i, log[i]) !in multiset(LogItems(front));
    }
  }
}
