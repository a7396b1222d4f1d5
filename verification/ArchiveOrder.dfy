/** Order: a partition's rows stay in arrival order exactly while its flushes land oldest first and come back
    newest first, through every failure and requeue. */
module ArchiveOrder {
  import opened Telemetry
  import opened Keys
  import opened Storage
  import opened Exports
  import opened Buffer
  import opened Archive

  /* ---------- the flushes of a partition, oldest first ---------- */

  function Without(ids: seq<Uuid>, id: Uuid): seq<Uuid> {
    if ids == [] then [] else if ids[0] == id then ids[1..] else [ids[0]] + Without(ids[1..], id)
  }

  function NextTurns(turns: seq<Uuid>, a: Action, p: string): seq<Uuid> {
    match a
    case Take(part, id) => if part == p then turns + [id] else turns
    case PutOk(id) => Without(turns, id)
    case Requeue(id) => Without(turns, id)
    case _ => turns
  }

  /** The flushes of partition p under way after a run, in the order they took their rows. */
  function Turns(acts: seq<Action>, p: string): seq<Uuid> {
    if acts == [] then [] else NextTurns(Turns(acts[..|acts| - 1], p), acts[|acts| - 1], p)
  }

  ghost predicate Tracks(turns: seq<Uuid>, flights: map<Uuid, Flight>, p: string) {
    && (forall i, j :: 0 <= i < j < |turns| ==> turns[i] != turns[j])
    && forall id :: id in turns <==> id in flights && flights[id].part == p
  }

  /** Only the oldest flush of p may land, and only the newest may come back. */
  predicate InTurn(turns: seq<Uuid>, a: Action) {
    && (a.PutOk? && a.id in turns ==> a.id == turns[0])
    && (a.Requeue? && a.id in turns ==> a.id == turns[|turns| - 1])
  }

  predicate InTurnRun(acts: seq<Action>, p: string) {
    acts == [] || (InTurnRun(acts[..|acts| - 1], p) && InTurn(Turns(acts[..|acts| - 1], p), acts[|acts| - 1]))
  }

  /** The rows of these flushes, one flush after the other. */
  function Flown(turns: seq<Uuid>, flights: map<Uuid, Flight>): seq<Item>
    requires forall id :: id in turns ==> id in flights
  {
    if turns == [] then [] else flights[turns[0]].items + Flown(turns[1..], flights)
  }

  lemma {:induction false} FlownConcat(a: seq<Uuid>, b: seq<Uuid>, flights: map<Uuid, Flight>)
    requires forall id :: id in a + b ==> id in flights
    ensures (forall id :: id in a ==> id in flights) && (forall id :: id in b ==> id in flights)
    ensures Flown(a + b, flights) == Flown(a, flights) + Flown(b, flights)
  {
    forall id | id in a ensures id in flights { assert id in a + b; }
    forall id | id in b ensures id in flights { assert id in a + b; }
    if a == [] {
      assert a + b == b;
    } else {
      assert (a + b)[1..] == a[1..] + b;
      FlownConcat(a[1..], b, flights);
    }
  }

  lemma {:induction false} FlownSame(turns: seq<Uuid>, f: map<Uuid, Flight>, g: map<Uuid, Flight>)
    requires forall id :: id in turns ==> id in f && id in g && f[id].items == g[id].items
    ensures Flown(turns, f) == Flown(turns, g)
  {
    if turns != [] { FlownSame(turns[1..], f, g); }
  }

  lemma {:induction false} WithoutAbsent(ids: seq<Uuid>, id: Uuid)
    requires id !in ids
    ensures Without(ids, id) == ids
  {
    if ids != [] { WithoutAbsent(ids[1..], id); }
  }

  lemma {:induction false} WithoutAt(ids: seq<Uuid>, m: nat)
    requires m < |ids| && forall i, j :: 0 <= i < j < |ids| ==> ids[i] != ids[j]
    ensures Without(ids, ids[m]) == ids[..m] + ids[m + 1..]
  {
    if m > 0 {
      assert ids[0] != ids[m];
      WithoutAt(ids[1..], m - 1);
      assert ids[1..][..m - 1] == ids[1..m] && ids[1..][m..] == ids[m + 1..];
    }
  }

  /** The rows of a partition's objects whose Put reported success. */
  function StoredOf(puts: seq<Put>, p: string): seq<Item> {
    if puts == [] then []
    else
      var last := puts[|puts| - 1];
      StoredOf(puts[..|puts| - 1], p) + if last.part == p && last.acked then last.items else []
  }

  /** A partition's rows: objects in Put order, then the flushes under way, oldest first, then the buffer. An
      object that a failing Put had stored is a copy of rows that are requeued, so it is no part of the line. */
  ghost function Line(s: State, turns: seq<Uuid>, p: string): seq<Item>
    requires Tracks(turns, s.flights, p)
  {
    StoredOf(s.puts, p) + Flown(turns, s.flights) + Buffered(s.parts, p)
  }

  /** The accepted rows of partition p in arrival order, without the dropped ones. */
  function Surviving(log: seq<Record>, p: string, dropped: seq<Item>): seq<Item> {
    if log == [] then []
    else
      var n := |log| - 1;
      Surviving(log[..n], p, dropped)
      + if PartitionKey(log[n]) == p && Item(n, log[n]) !in dropped then [Item(n, log[n])] else []
  }

  function Minus(rows: seq<Item>, gone: seq<Item>): seq<Item> {
    if rows == [] then []
    else Minus(rows[..|rows| - 1], gone) + if rows[|rows| - 1] in gone then [] else [rows[|rows| - 1]]
  }

  lemma {:induction false} MinusConcat(a: seq<Item>, b: seq<Item>, gone: seq<Item>)
    ensures Minus(a + b, gone) == Minus(a, gone) + Minus(b, gone)
  {
    if b == [] {
      assert a + b == a;
    } else {
      assert (a + b)[..|a + b| - 1] == a + b[..|b| - 1];
      MinusConcat(a, b[..|b| - 1], gone);
    }
  }

  lemma {:induction false} MinusNone(a: seq<Item>, gone: seq<Item>)
    requires forall x :: x in a ==> x !in gone
    ensures Minus(a, gone) == a
  {
    if a != [] { MinusNone(a[..|a| - 1], gone); }
  }

  lemma {:induction false} MinusAll(a: seq<Item>, gone: seq<Item>)
    requires forall x :: x in a ==> x in gone
    ensures Minus(a, gone) == []
  {
    if a != [] { MinusAll(a[..|a| - 1], gone); }
  }

  lemma {:induction false} SurvivingMinus(log: seq<Record>, p: string, d: seq<Item>, e: seq<Item>)
    ensures Surviving(log, p, d + e) == Minus(Surviving(log, p, d), e)
  {
    hide PartitionKey;
    if log != [] {
      var n := |log| - 1;
      SurvivingMinus(log[..n], p, d, e);
      var x, s := Item(n, log[n]), Surviving(log[..n], p, d);
      assert x in d + e <==> x in d || x in e;
      if PartitionKey(log[n]) == p && x !in d { assert (s + [x])[..|s|] == s; } else { assert s + [] == s; }
    }
  }

  predicate Increasing(rows: seq<Item>) {
    forall i, j :: 0 <= i < j < |rows| ==> rows[i].no < rows[j].no
  }

  lemma {:induction false} SurvivingFacts(log: seq<Record>, p: string, d: seq<Item>)
    ensures Increasing(Surviving(log, p, d))
    ensures forall x :: x in Surviving(log, p, d) ==> x.no < |log| && PartitionKey(x.rec) == p
  {
    hide PartitionKey;
    if log != [] { SurvivingFacts(log[..|log| - 1], p, d); }
  }

  lemma Apart(a: seq<Item>, b: seq<Item>)
    requires Increasing(a + b)
    ensures forall x :: x in b ==> x !in a
    ensures forall x :: x in a ==> x !in b
  {
    forall i, j | 0 <= i < |a| && 0 <= j < |b| ensures a[i] != b[j] {
      assert (a + b)[i].no < (a + b)[|a| + j].no;
    }
  }

  lemma FrontIncreasing(a: seq<Item>, b: seq<Item>)
    requires Increasing(a + b)
    ensures Increasing(a)
  {
    forall i, j | 0 <= i < j < |a| ensures a[i].no < a[j].no {
      assert (a + b)[i].no < (a + b)[j].no;
    }
  }

  /** Dropping a stretch of an increasing line leaves what is before and after it. */
  lemma DropStretch(a: seq<Item>, over: seq<Item>, kept: seq<Item>)
    requires Increasing(a + over + kept)
    ensures Minus(a + over + kept, over) == a + kept
  {
    hide Minus, Increasing;
    Apart(a + over, kept);
    FrontIncreasing(a + over, kept);
    Apart(a, over);
    MinusConcat(a + over, kept, over);
    MinusConcat(a, over, over);
    MinusNone(a, over);
    MinusAll(over, over);
    MinusNone(kept, over);
  }

  /** The rows of p stand in arrival order, wherever they are. */
  ghost predicate Ordered(s: State, turns: seq<Uuid>, p: string) {
    && Tracks(turns, s.flights, p)
    && Line(s, turns, p) == Surviving(s.log, p, s.dropped)
  }

  predicate DropsKnown(s: State) { forall x :: x in s.dropped ==> x.no < |s.log| }

  lemma SurvivingAppend(log: seq<Record>, rec: Record, p: string, d: seq<Item>)
    requires forall x :: x in d ==> x.no < |log|
    ensures Surviving(log + [rec], p, d) == Surviving(log, p, d) + if PartitionKey(rec) == p then [Item(|log|, rec)]
        else []
  {
    hide PartitionKey;
    assert (log + [rec])[..|log|] == log;
  }

  /** The line of p when a record of p arrives: the arrival joins its end and the overflow leaves its middle. */
  lemma OwnArrival(s: State, rec: Record, maxRows: nat, turns: seq<Uuid>, p: string)
    requires DropsKnown(s) && Ordered(s, turns, p) && PartitionKey(rec) == p
    ensures var rows := Buffered(s.parts, p) + [Item(|s.log|, rec)];
            StoredOf(s.puts, p) + Flown(turns, s.flights) + LastN(rows, maxRows)
            == Surviving(s.log + [rec], p, s.dropped + Overflow(rows, maxRows))
  {
    hide PartitionKey, Flown, StoredOf, Surviving, Minus, Increasing, IsNumber, IsUuid;
    var a, rows := StoredOf(s.puts, p) + Flown(turns, s.flights), Buffered(s.parts, p) + [Item(|s.log|, rec)];
    var over, kept := Overflow(rows, maxRows), LastN(rows, maxRows);
    SurvivingAppend(s.log, rec, p, s.dropped);
    SurvivingMinus(s.log + [rec], p, s.dropped, over);
    SurvivingFacts(s.log + [rec], p, s.dropped);
    assert rows == over + kept;
    assert a + Buffered(s.parts, p) + [Item(|s.log|, rec)] == a + over + kept;
    DropStretch(a, over, kept);
  }

  /** The line of p does not change when a record of another partition arrives. */
  lemma OtherArrival(s: State, rec: Record, over: seq<Item>, p: string)
    requires DropsKnown(s) && PartitionKey(rec) != p && forall y :: y in over ==> PartitionKey(y.rec) != p
    ensures Surviving(s.log + [rec], p, s.dropped + over) == Surviving(s.log, p, s.dropped)
  {
    hide PartitionKey, Surviving, Minus, Increasing;
    SurvivingAppend(s.log, rec, p, s.dropped);
    SurvivingMinus(s.log + [rec], p, s.dropped, over);
    SurvivingFacts(s.log, p, s.dropped);
    var l := Surviving(s.log, p, s.dropped);
    MinusNone(l, over);
    assert l + [] == l;
  }

  lemma AcceptOrder(s: State, rec: Record, maxRows: nat, turns: seq<Uuid>, p: string)
    requires PartsOk(s.parts, s.log) && DropsKnown(s) && Accepted(rec) && Ordered(s, turns, p)
    ensures Ordered(Apply(s, Accept(rec), maxRows), turns, p)
  {
    hide PartitionKey, Accepted, Flown, StoredOf, Surviving;
    var k := PartitionKey(rec);
    var rows := Buffered(s.parts, k) + [Item(|s.log|, rec)];
    BufferedBelongs(s, k);
    var over := Overflow(rows, maxRows);
    forall y | y in over ensures PartitionKey(y.rec) == k { assert y in rows; }
    if k == p { OwnArrival(s, rec, maxRows, turns, p); } else { OtherArrival(s, rec, over, p); }
  }

  lemma BufferedBelongs(s: State, k: string)
    requires PartsOk(s.parts, s.log)
    ensures forall y :: y in Buffered(s.parts, k) ==> PartitionKey(y.rec) == k && y.no < |s.log|
  {
    hide PartitionKey;
  }

  lemma StoredOfAppend(puts: seq<Put>, put: Put, p: string)
    ensures StoredOf(puts + [put], p) == StoredOf(puts, p) + if put.part == p && put.acked then put.items else []
  {
    assert (puts + [put])[..|puts|] == puts;
  }

  lemma TakeOrder(s: State, part: string, id: Uuid, maxRows: nat, turns: seq<Uuid>, p: string)
    requires FlightsOk(s.flights, s.ids, s.log) && Enabled(s, Take(part, id)) && Ordered(s, turns, p)
    ensures Ordered(Apply(s, Take(part, id), maxRows), NextTurns(turns, Take(part, id), p), p)
  {
    hide Flown, StoredOf, Surviving, PartitionKey;
    var t := Apply(s, Take(part, id), maxRows);
    assert id !in s.flights;
    FlownSame(turns, s.flights, t.flights);
    if part == p {
      FlownConcat(turns, [id], t.flights);
      FlownOne(id, t.flights);
      var st, f, b := StoredOf(s.puts, p), Flown(turns, s.flights), s.parts[p];
      assert st + f + b == st + (f + b) + [];
    }
  }

  lemma FlownOne(id: Uuid, flights: map<Uuid, Flight>)
    requires id in flights
    ensures Flown([id], flights) == flights[id].items
  {
    assert flights[id].items + [] == flights[id].items;
  }

  /** The rows of the flush at position m between those of the older and the newer ones. */
  lemma FlownAt(turns: seq<Uuid>, flights: map<Uuid, Flight>, m: nat)
    requires m < |turns| && forall id :: id in turns ==> id in flights
    ensures (forall id :: id in turns[..m] ==> id in flights) && (forall id :: id in turns[m + 1..] ==> id in flights)
    ensures Flown(turns, flights)
            == Flown(turns[..m], flights) + flights[turns[m]].items + Flown(turns[m + 1..], flights)
  {
    hide Flown;
    var id := turns[m];
    assert turns == turns[..m] + ([id] + turns[m + 1..]);
    FlownConcat(turns[..m], [id] + turns[m + 1..], flights);
    FlownConcat([id], turns[m + 1..], flights);
    FlownOne(id, flights);
  }

  lemma {:induction false} FlownEmpty(turns: seq<Uuid>, flights: map<Uuid, Flight>)
    requires forall id :: id in turns ==> id in flights && flights[id].items != []
    ensures Flown(turns, flights) == [] <==> turns == []
  {
  }

  /** What is left of the flushes when the one at position m is gone. */
  lemma Removed(turns: seq<Uuid>, flights: map<Uuid, Flight>, m: nat, p: string)
    requires Tracks(turns, flights, p) && m < |turns|
    ensures var id, rest := turns[m], Without(turns, turns[m]);
            && Tracks(rest, flights - {id}, p)
            && (forall i :: i in turns[..m] ==> i in flights) && (forall i :: i in turns[m + 1..] ==> i in flights)
            && Flown(rest, flights - {id}) == Flown(turns[..m], flights) + Flown(turns[m + 1..], flights)
  {
    hide Flown, Without;
    var id, rest := turns[m], turns[..m] + turns[m + 1..];
    WithoutAt(turns, m);
    forall i ensures i in rest <==> i in turns && i != id {
      if i in turns && i != id {
        var n :| 0 <= n < |turns| && turns[n] == i;
        assert if n < m then rest[n] == i else rest[n - 1] == i;
      }
    }
    FlownSame(rest, flights, flights - {id});
    FlownConcat(turns[..m], turns[m + 1..], flights);
  }

  /** Two stretches of an increasing line can change places only if one of them is empty. */
  lemma Commute(a: seq<Item>, x: seq<Item>, y: seq<Item>, b: seq<Item>)
    requires Increasing(a + x + y + b)
    ensures a + y + x + b == a + x + y + b <==> x == [] || y == []
  {
    if x == [] || y == [] {
      assert a + y + x == a + x + y;
    } else {
      var l := a + x + y + b;
      assert l[|a|] == x[0] && l[|a| + |x|] == y[0];
      assert l[|a|].no < l[|a| + |x|].no;
      assert (a + y + x + b)[|a|] == y[0];
    }
  }

  /** Landing or coming back keeps the line exactly when it is the flush's turn. */
  lemma LeaveOrder(s: State, a: Action, maxRows: nat, turns: seq<Uuid>, m: nat, p: string)
    requires Inv(s) && Enabled(s, a) && Ordered(s, turns, p) && (a.PutOk? || a.Requeue?)
    requires m < |turns| && turns[m] == a.id
    ensures Ordered(Apply(s, a, maxRows), NextTurns(turns, a, p), p) <==> InTurn(turns, a)
  {
    hide Inv, FileKey, Stored, Flown, StoredOf, Surviving, Increasing, IsNumber, IsUuid, Without;
    var f, t := s.flights[a.id], Apply(s, a, maxRows);
    Removed(turns, s.flights, m, p);
    FlownAt(turns, s.flights, m);
    SurvivingFacts(s.log, p, s.dropped);
    var older, newer := Flown(turns[..m], s.flights), Flown(turns[m + 1..], s.flights);
    var st, b := StoredOf(s.puts, p), Buffered(s.parts, p);
    RowsThere(s, turns[..m]);
    RowsThere(s, turns[m + 1..]);
    RowsThere(s, [a.id]);
    assert f.items != [];
    var line := st + (older + f.items + newer) + b;
    if a.PutOk? {
      StoredOfAppend(s.puts, PutOf(s, a.id, true), p);
      assert line == st + older + f.items + (newer + b);
      Commute(st, older, f.items, newer + b);
      assert Line(t, NextTurns(turns, a, p), p) == st + f.items + older + (newer + b);
    } else {
      assert line == (st + older) + f.items + newer + b;
      Commute(st + older, f.items, newer, b);
      assert Line(t, NextTurns(turns, a, p), p) == (st + older) + newer + f.items + b;
    }
  }

  /** A flush under way holds rows. */
  lemma RowsThere(s: State, turns: seq<Uuid>)
    requires Inv(s) && forall id :: id in turns ==> id in s.flights
    ensures Flown(turns, s.flights) == [] <==> turns == []
    ensures forall id :: id in turns ==> s.flights[id].items != []
  {
    hide Conserved, Holds, FilesOf, FreshKeys, PutsOk, PartsOk, AllStored, KeysDiffer, Belong, Flown;
    FlownEmpty(turns, s.flights);
  }

  lemma OtherLeave(s: State, a: Action, maxRows: nat, turns: seq<Uuid>, p: string)
    requires Enabled(s, a) && Ordered(s, turns, p) && (a.PutOk? || a.Requeue?) && a.id !in turns
    ensures Ordered(Apply(s, a, maxRows), NextTurns(turns, a, p), p)
  {
    hide FileKey, Stored, Flown, StoredOf, Surviving, IsNumber, IsUuid;
    WithoutAbsent(turns, a.id);
    FlownSame(turns, s.flights, s.flights - {a.id});
    if a.PutOk? { StoredOfAppend(s.puts, PutOf(s, a.id, true), p); }
    assert StoredOf(s.puts, p) + [] == StoredOf(s.puts, p);
  }

  lemma FailOrder(s: State, id: Uuid, stored: bool, maxRows: nat, turns: seq<Uuid>, p: string)
    requires Enabled(s, PutErr(id, stored)) && Ordered(s, turns, p)
    ensures Ordered(Apply(s, PutErr(id, stored), maxRows), turns, p)
  {
    hide FileKey, Stored, Flown, StoredOf, Surviving, IsNumber, IsUuid;
    FlownSame(turns, s.flights, s.flights[id := s.flights[id].(failed := true)]);
    StoredOfAppend(s.puts, PutOf(s, id, false), p);
    assert StoredOf(s.puts, p) + [] == StoredOf(s.puts, p);
  }

  lemma ForeignOrder(s: State, key: string, text: string, maxRows: nat, turns: seq<Uuid>, p: string)
    requires ForeignKey(key) && Ordered(s, turns, p)
    ensures Ordered(Apply(s, Foreign(key, text), maxRows), turns, p)
  {
    hide ForeignKey, Flown, StoredOf, Surviving;
  }

  /** A step from an ordered state leads to an ordered state exactly when it is in turn. */
  lemma StepOrder(s: State, a: Action, maxRows: nat, turns: seq<Uuid>, p: string)
    requires Inv(s) && DropsKnown(s) && Enabled(s, a) && Ordered(s, turns, p)
    ensures Ordered(Apply(s, a, maxRows), NextTurns(turns, a, p), p) <==> InTurn(turns, a)
  {
    hide FileKey, ForeignKey, Ordered, Conserved, Holds, FilesOf, FreshKeys, PutsOk, PartsOk, FlightsOk, AllStored,
      KeysDiffer, Apply, Enabled, Without, DropsKnown;
    match a
    case Accept(rec) => Acceptable(s, rec); AcceptOrder(s, rec, maxRows, turns, p);
    case Take(part, id) => TakeOrder(s, part, id, maxRows, turns, p);
    case PutErr(id, stored) => FailOrder(s, id, stored, maxRows, turns, p);
    case Foreign(key, text) => Outside(s, key, text); ForeignOrder(s, key, text, maxRows, turns, p);
    case _ =>
      if a.id in turns {
        var m :| 0 <= m < |turns| && turns[m] == a.id;
        LeaveOrder(s, a, maxRows, turns, m, p);
      } else {
        OtherLeave(s, a, maxRows, turns, p);
      }
  }

  lemma Acceptable(s: State, rec: Record)
    requires Enabled(s, Accept(rec))
    ensures Accepted(rec)
  {
    hide Accepted;
  }

  lemma Outside(s: State, key: string, text: string)
    requires Enabled(s, Foreign(key, text))
    ensures ForeignKey(key)
  {
    hide ForeignKey;
  }

  lemma DropsStep(s: State, a: Action, maxRows: nat)
    requires Inv(s) && DropsKnown(s) && Enabled(s, a)
    ensures DropsKnown(Apply(s, a, maxRows))
  {
    hide FileKey, ForeignKey, Accepted, PartitionKey, Conserved, Holds, FilesOf, FreshKeys, PutsOk, FlightsOk,
      AllStored, KeysDiffer, Stored, IsNumber, IsUuid;
    if a.Accept? {
      var k := PartitionKey(a.rec);
      BufferedBelongs(s, k);
      var rows := Buffered(s.parts, k) + [Item(|s.log|, a.rec)];
      forall y | y in Overflow(rows, maxRows) ensures y.no <= |s.log| { assert y in rows; }
    }
  }

  lemma {:induction false} RunDrops(acts: seq<Action>, maxRows: nat)
    requires ValidRun(acts, maxRows)
    ensures Inv(End(acts, maxRows)) && DropsKnown(End(acts, maxRows))
  {
    hide Inv, Apply, Enabled;
    RunInv(acts, maxRows);
    if acts != [] {
      var front := acts[..|acts| - 1];
      RunDrops(front, maxRows);
      DropsStep(End(front, maxRows), acts[|acts| - 1], maxRows);
    }
  }

  /** Every state of a run is ordered. */
  ghost predicate OrderedRun(acts: seq<Action>, maxRows: nat, p: string)
    requires ValidRun(acts, maxRows)
  {
    && (acts != [] ==> OrderedRun(acts[..|acts| - 1], maxRows, p))
    && Ordered(End(acts, maxRows), Turns(acts, p), p)
  }

  lemma StartOrder(p: string)
    ensures Ordered(INIT, [], p)
  {
  }

  /** In every state of a run a partition's objects whose Put succeeded, in Put order, then its flushes under way,
      oldest first, then its buffer are its arrivals without the dropped rows, in order, if and only if every
      successful Put was of the oldest flush then under way and every requeue of the newest, through every
      failure, also of Puts that stored before they failed. */
  lemma {:induction false} OrderKept(acts: seq<Action>, maxRows: nat, p: string)
    requires ValidRun(acts, maxRows)
    ensures OrderedRun(acts, maxRows, p) <==> InTurnRun(acts, p)
  {
    hide Inv, Apply, Enabled, Ordered, NextTurns, InTurn, DropsKnown;
    if acts == [] {
      StartOrder(p);
    } else {
      var front := acts[..|acts| - 1];
      OrderKept(front, maxRows, p);
      if OrderedRun(front, maxRows, p) {
        RunDrops(front, maxRows);
        StepOrder(End(front, maxRows), acts[|acts| - 1], maxRows, Turns(front, p), p);
      }
    }
  }

  /* ---------- one flush at a time ---------- */

  /** A step that starts no second flush of p. */
  predicate SerialRun(acts: seq<Action>, p: string) {
    acts == [] ||
    (SerialRun(acts[..|acts| - 1], p) &&
     (acts[|acts| - 1].Take? && acts[|acts| - 1].part == p ==> Turns(acts[..|acts| - 1], p) == []))
  }

  /** A run that flushes p once at a time is in turn, so its rows stay in order. */
  lemma {:induction false} SerialInTurn(acts: seq<Action>, p: string)
    requires SerialRun(acts, p)
    ensures |Turns(acts, p)| <= 1 && InTurnRun(acts, p)
  {
    if acts != [] {
      SerialInTurn(acts[..|acts| - 1], p);
      WithoutShorter(Turns(acts[..|acts| - 1], p), acts[|acts| - 1]);
    }
  }

  lemma WithoutShorter(turns: seq<Uuid>, a: Action)
    ensures a.PutOk? || a.Requeue? ==> |Without(turns, a.id)| <= |turns|
  {
  }

  /* ---------- two flushes out of turn ---------- */

  lemma Extend(acts: seq<Action>, a: Action, maxRows: nat)
    requires ValidRun(acts, maxRows) && Enabled(End(acts, maxRows), a)
    ensures ValidRun(acts + [a], maxRows) && End(acts + [a], maxRows) == Apply(End(acts, maxRows), a, maxRows)
  {
    hide Apply, Enabled;
    assert (acts + [a])[..|acts|] == acts;
  }

  function SwapRun(a: Record, b: Record, i: Uuid, j: Uuid): seq<Action> {
    var p := PartitionKey(a);
    [Accept(a), Take(p, i), Accept(b), Take(p, j), PutErr(i, false), PutErr(j, false), Requeue(i), Requeue(j)]
  }

  /** A run out of turn: two failing flushes of one partition can swap their rows. */
  lemma ConcurrentFlushesSwap(a: Record, b: Record, i: Uuid, j: Uuid)
    requires Accepted(a) && Accepted(b) && PartitionKey(a) == PartitionKey(b) && i != j
    ensures ValidRun(SwapRun(a, b, i, j), 10)
    ensures Buffered(End(SwapRun(a, b, i, j), 10).parts, PartitionKey(a)) == [Item(1, b), Item(0, a)]
  {
    hide PartitionKey, Accepted, FileKey, ValidRun, End, Overflow, Stored, LastN, ForeignKey;
    var r := SwapRun(a, b, i, j);
    SwapHead(r, a, b, i);
    SwapTail(r, End(r[..3], 10), a, b, i, j);
    assert r[..8] == r;
  }

  lemma SwapHead(r: seq<Action>, a: Record, b: Record, i: Uuid)
    requires Accepted(a) && Accepted(b) && PartitionKey(a) == PartitionKey(b)
    requires |r| == 8 && r[0] == Accept(a) && r[1] == Take(PartitionKey(a), i) && r[2] == Accept(b)
    ensures ValidRun(r[..3], 10)
    ensures var s := End(r[..3], 10);
            && s.ids == {i} && s.parts == map[PartitionKey(a) := [Item(1, b)]]
            && s.flights == map[i := Flight(PartitionKey(a), [Item(0, a)], false)]
  {
    hide PartitionKey, Accepted, FileKey, ValidRun, End, Appended, Overflow, Stored, LastN, ForeignKey;
    SwapStart(r, a, i);
    FirstRow(PartitionKey(b), Item(1, b));
    NextStep(r, 2);
  }

  lemma FirstRow(p: string, x: Item)
    ensures Appended(map[], p, x, 10) == map[p := [x]]
  {
    var none: Parts<Item> := map[];
    RoomyAppend(none, p, x, 10);
    assert Buffered(none, p) + [x] == [x];
  }

  lemma SwapStart(r: seq<Action>, a: Record, i: Uuid)
    requires Accepted(a) && |r| == 8 && r[0] == Accept(a) && r[1] == Take(PartitionKey(a), i)
    ensures ValidRun(r[..2], 10)
    ensures var s := End(r[..2], 10);
            && s.ids == {i} && s.parts == map[] && s.log == [a]
            && s.flights == map[i := Flight(PartitionKey(a), [Item(0, a)], false)]
  {
    hide PartitionKey, Accepted, FileKey, ValidRun, End, Appended, Overflow, Stored, LastN, ForeignKey;
    EmptyRun();
    assert r[..0] == [];
    NextStep(r, 0);
    FirstRow(PartitionKey(a), Item(0, a));
    NextStep(r, 1);
    assert map[PartitionKey(a) := [Item(0, a)]] - {PartitionKey(a)} == map[];
  }

  lemma SwapTail(r: seq<Action>, s: State, a: Record, b: Record, i: Uuid, j: Uuid)
    requires r == SwapRun(a, b, i, j) && ValidRun(r[..3], 10) && s == End(r[..3], 10) && i != j && s.ids == {i}
    requires s.parts == map[PartitionKey(a) := [Item(1, b)]]
    requires s.flights == map[i := Flight(PartitionKey(a), [Item(0, a)], false)]
    ensures ValidRun(r[..8], 10) && Buffered(End(r[..8], 10).parts, PartitionKey(a)) == [Item(1, b), Item(0, a)]
  {
    hide PartitionKey, Accepted, FileKey, ValidRun, End, Overflow, Stored, LastN, ForeignKey, IsNumber, IsUuid;
    var p := PartitionKey(a);
    NextStep(r, 3);
    NextStep(r, 4);
    NextStep(r, 5);
    var t := End(r[..6], 10);
    assert t.parts == map[] && t.flights[i] == Flight(p, [Item(0, a)], true)
        && t.flights[j] == Flight(p, [Item(1, b)], true);
    NextStep(r, 6);
    NextStep(r, 7);
  }

  lemma EmptyRun()
    ensures ValidRun([], 10) && End([], 10) == INIT
  {
  }

  lemma NextStep(r: seq<Action>, n: nat)
    requires n < |r| && ValidRun(r[..n], 10) && Enabled(End(r[..n], 10), r[n])
    ensures ValidRun(r[..n + 1], 10) && End(r[..n + 1], 10) == Apply(End(r[..n], 10), r[n], 10)
  {
    hide Apply, Enabled;
    Extend(r[..n], r[n], 10);
    assert r[..n] + [r[n]] == r[..n + 1];
  }
}
