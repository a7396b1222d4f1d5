/** Conservation partition by partition, and how far a buffer can grow. */
module ArchivePlaces {
  import opened Telemetry
  import opened Keys
  import opened Storage
  import opened Csv
  import Exports
  import opened Buffer
  import opened Archive
  import ArchiveOrder

  /* ---------- each partition conserves its own rows ---------- */

  predicate Within(items: seq<Item>, p: string) { forall i :: 0 <= i < |items| ==> PartitionKey(items[i].rec) == p }

  /** The flushes under way of one partition. */
  function FlightsOf(flights: map<Uuid, Flight>, p: string): map<Uuid, Flight> {
    map id | id in flights && flights[id].part == p :: flights[id]
  }

  /** The rows of a partition's stored objects. */
  function StoredIn(puts: seq<Put>, p: string): seq<Item> {
    if puts == [] then []
    else StoredIn(puts[..|puts| - 1], p) + if puts[|puts| - 1].part == p then puts[|puts| - 1].items else []
  }

  lemma {:induction false} NotInTotal<K(!new)>(m: map<K, seq<Item>>, x: Item)
    requires forall k :: k in m ==> x !in m[k]
    ensures Total(m)[x] == 0
    decreases m.Keys
  {
    if m != map[] {
      var k := Pick(m);
      NotInTotal(m - {k}, x);
      assert x !in multiset(m[k]);
    }
  }

  lemma BufferedHere(parts: Parts<Item>, x: Item, p: string)
    requires (forall k :: k in parts ==> Within(parts[k], k)) && PartitionKey(x.rec) == p
    ensures Total(parts)[x] == multiset(Buffered(parts, p))[x]
  {
    hide PartitionKey, Total;
    TotalWithout(parts, p);
    var rest := parts - {p};
    forall k | k in rest ensures x !in rest[k] { assert Within(parts[k], k); }
    NotInTotal(rest, x);
  }

  lemma {:induction false} FlyingHere(flights: map<Uuid, Flight>, x: Item, p: string)
    requires (forall id :: id in flights ==> Within(flights[id].items, flights[id].part)) && PartitionKey(x.rec) == p
    ensures Total(Flying(flights))[x] == Total(Flying(FlightsOf(flights, p)))[x]
    decreases flights.Keys
  {
    hide PartitionKey, Total, Flying, FlightsOf;
    if flights == map[] {
      NoFlights(p);
    } else {
      assert flights.Keys != {};
      var id := Pick(flights);
      var rest := flights - {id};
      LandedTotal(flights, id);
      FlyingHere(rest, x, p);
      FlightsOfWithout(flights, id, p);
      if flights[id].part == p {
        LandedTotal(FlightsOf(flights, p), id);
      } else {
        assert Within(flights[id].items, flights[id].part);
        assert x !in multiset(flights[id].items);
      }
    }
  }

  lemma NoFlights(p: string)
    ensures FlightsOf(map[], p) == map[]
  {
  }

  lemma FlightsOfWithout(flights: map<Uuid, Flight>, id: Uuid, p: string)
    requires id in flights
    ensures flights[id].part == p ==> id in FlightsOf(flights, p) && FlightsOf(flights, p)[id] == flights[id]
                                      && FlightsOf(flights - {id}, p) == FlightsOf(flights, p) - {id}
    ensures flights[id].part != p ==> FlightsOf(flights - {id}, p) == FlightsOf(flights, p)
  {
  }

  lemma {:induction false} StoredHere(puts: seq<Put>, x: Item, p: string)
    requires (forall i :: 0 <= i < |puts| ==> Within(puts[i].items, puts[i].part)) && PartitionKey(x.rec) == p
    ensures multiset(Flat(puts))[x] == multiset(StoredIn(puts, p))[x]
  {
    hide PartitionKey;
    if puts != [] {
      StoredHere(puts[..|puts| - 1], x, p);
      var last := puts[|puts| - 1];
      assert Within(last.items, last.part);
      if last.part != p { assert x !in multiset(last.items); }
    }
  }

  /** In every run, for every partition: each of its rows is buffered under that partition, in flight for
      it, stored in one of its objects or dropped, as often as it was accepted, and once more for each
      time a failing Put had stored it. */
  lemma PartitionConserves(acts: seq<Action>, maxRows: nat, x: Item)
    requires ValidRun(acts, maxRows)
    ensures var s, p := End(acts, maxRows), PartitionKey(x.rec);
            multiset(LogItems(s.log))[x] + multiset(s.duplicated)[x]
            == multiset(Buffered(s.parts, p))[x] + Total(Flying(FlightsOf(s.flights, p)))[x]
               + multiset(StoredIn(s.puts, p))[x] + multiset(s.dropped)[x]
  {
    hide Exports.Holds, FreshKeys, FilesOf, Flat, Total, End, ValidRun, LogItems, Flying, FlightsOf, PartitionKey,
      FileKey;
    RunInv(acts, maxRows);
    var s, p := End(acts, maxRows), PartitionKey(x.rec);
    forall k | k in s.parts ensures Within(s.parts[k], k) { assert Belong(s.parts[k], k, s.log); }
    forall id | id in s.flights ensures Within(s.flights[id].items, s.flights[id].part) {
      assert Belong(s.flights[id].items, s.flights[id].part, s.log);
    }
    forall i | 0 <= i < |s.puts| ensures Within(s.puts[i].items, s.puts[i].part) {
      assert PutOkay(s.puts[i], s.ids, s.flights, s.log);
    }
    BufferedHere(s.parts, x, p);
    FlyingHere(s.flights, x, p);
    StoredHere(s.puts, x, p);
    assert Places(s)[x] == multiset(LogItems(s.log))[x] + multiset(s.duplicated)[x];
  }

  /* ---------- the size of a buffer ---------- */

  /** A step takes a buffer over maxRows exactly when it requeues rows that do not fit. */
  lemma OnlyRequeueOverfills(s: State, a: Action, maxRows: nat, p: string)
    requires Enabled(s, a)
    ensures a.Accept? && PartitionKey(a.rec) == p ==> |Buffered(Apply(s, a, maxRows).parts, p)| <= maxRows
    ensures |Buffered(s.parts, p)| <= maxRows ==>
              (|Buffered(Apply(s, a, maxRows).parts, p)| > maxRows <==>
               a.Requeue? && s.flights[a.id].part == p && |s.flights[a.id].items| + |Buffered(s.parts, p)| > maxRows)
  {
    hide PartitionKey, FileKey, FileText, Rows, ForeignKey;
  }

  predicate NoRequeue(acts: seq<Action>) { forall i :: 0 <= i < |acts| ==> !acts[i].Requeue? }

  lemma {:induction false} NeverOverfull(acts: seq<Action>, maxRows: nat, p: string)
    requires ValidRun(acts, maxRows) && NoRequeue(acts)
    ensures |Buffered(End(acts, maxRows).parts, p)| <= maxRows
  {
    hide Apply, Enabled;
    if acts != [] {
      var front := acts[..|acts| - 1];
      NeverOverfull(front, maxRows, p);
      OnlyRequeueOverfills(End(front, maxRows), acts[|acts| - 1], maxRows, p);
    }
  }

  lemma {:induction false} Fill(acts: seq<Action>, maxRows: nat, rec: Record, n: nat) returns (longer: seq<Action>)
    requires ValidRun(acts, maxRows) && Accepted(rec) && n <= maxRows
    requires Buffered(End(acts, maxRows).parts, PartitionKey(rec)) == []
    ensures ValidRun(longer, maxRows) && |Buffered(End(longer, maxRows).parts, PartitionKey(rec))| == n
    ensures End(longer, maxRows).flights == End(acts, maxRows).flights
    ensures End(longer, maxRows).ids == End(acts, maxRows).ids
  {
    hide PartitionKey, Accepted, ValidRun, End, FileKey;
    if n == 0 {
      longer := acts;
    } else {
      var most := Fill(acts, maxRows, rec, n - 1);
      ArchiveOrder.Extend(most, Accept(rec), maxRows);
      longer := most + [Accept(rec)];
    }
  }

  /** And it can: a row that comes back from a failed Put in front of a full buffer. */
  lemma RequeueOverfills(rec: Record, id: Uuid, maxRows: nat) returns (acts: seq<Action>)
    requires Accepted(rec) && maxRows >= 1
    ensures ValidRun(acts, maxRows) && |Buffered(End(acts, maxRows).parts, PartitionKey(rec))| == maxRows + 1
  {
    hide PartitionKey, Accepted, ValidRun, End, FileKey;
    var p := PartitionKey(rec);
    EmptyRun(maxRows);
    var one := Fill([], maxRows, rec, 1);
    ArchiveOrder.Extend(one, Take(p, id), maxRows);
    var taken := one + [Take(p, id)];
    acts := Fill(taken, maxRows, rec, maxRows);
    ArchiveOrder.Extend(acts, PutErr(id, false), maxRows);
    acts := acts + [PutErr(id, false)];
    ArchiveOrder.Extend(acts, Requeue(id), maxRows);
    acts := acts + [Requeue(id)];
  }

  lemma EmptyRun(maxRows: nat)
    ensures ValidRun([], maxRows) && End([], maxRows) == INIT
  {
  }
}
