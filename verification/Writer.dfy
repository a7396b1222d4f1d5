/** The archive writer run one operation at a time: its buffers, its files, and the sliding window a
    partition keeps through failing Puts. */
module Writer {
  import opened Text
  import opened Telemetry
  import opened Keys
  import opened Storage
  import opened Csv
  import opened Buffer

  /** What the environment answers to one Put: the store works, errs before storing, or errs after it. */
  datatype Fault = Works | Refuses | StoresThenFails

  /** The answers one flush gets: the file id of newID and the fate of its Put. */
  datatype Reply = Reply(id: Uuid, fault: Fault)

  /** The writer's buffers, the object store, and as history the batches whose Put reported success. */
  datatype State = State(parts: Parts<Row>, blob: map<string, string>, flushed: seq<Batch<Row>>)

  datatype Options = Options(flushRows: nat, maxRows: nat)

  predicate ValidOptions(o: Options) { o.flushRows >= 1 && o.maxRows >= 1 }

  function WithDefaults(flushRows: int, maxRows: int): (o: Options)
    ensures ValidOptions(o)
    ensures flushRows >= 1 ==> o.flushRows == flushRows
    ensures maxRows >= 1 ==> o.maxRows == maxRows
    ensures flushRows < 1 ==> o.flushRows == 100
    ensures maxRows < 1 ==> o.maxRows == 10000
  {
    Options(if flushRows <= 0 then 100 else flushRows, if maxRows <= 0 then 10000 else maxRows)
  }

  predicate WideRows(parts: Parts<Row>) { forall p :: p in parts ==> Uniform(parts[p], 6) }

  /* ---------- the specification of the operations ---------- */

  function StoredBlob(blob: map<string, string>, part: string, r: Reply, rows: seq<Row>): map<string, string>
    requires NonEmptyRows(rows)
  {
    if FileKey(part, r.id).Some? && r.fault != Refuses then blob[FileKey(part, r.id).value := FileText(rows)] else blob
  }

  predicate PutWorks(part: string, r: Reply) { FileKey(part, r.id).Some? && r.fault == Works }

  /** flushPartition: write the buffered rows to one new object; on an error they stay buffered. */
  function AfterFlush(s: State, part: string, r: Reply): (t: State)
    requires WideRows(s.parts)
    ensures WideRows(t.parts)
  {
    var rows := Buffered(s.parts, part);
    if rows == [] then s
    else if PutWorks(part, r) then
      State(Taken(s.parts, part), StoredBlob(s.blob, part, r, rows), s.flushed + [Batch(part, rows)])
    else s.(blob := StoredBlob(s.blob, part, r, rows))
  }

  function AfterAppend(s: State, rec: Record, o: Options): (t: State)
    requires WideRows(s.parts)
    ensures WideRows(t.parts)
  {
    WideAppended(s.parts, PartitionKey(rec), EncodeRow(rec), o.maxRows);
    s.(parts := Appended(s.parts, PartitionKey(rec), EncodeRow(rec), o.maxRows))
  }

  lemma WideBuffered(parts: Parts<Row>, p: string, row: Row)
    requires WideRows(parts) && |row| == 6
    ensures Uniform(Buffered(parts, p) + [row], 6)
  {
  }

  lemma WideLast(rows: seq<Row>, n: nat)
    requires Uniform(rows, 6)
    ensures Uniform(LastN(rows, n), 6)
  {
  }

  lemma WideUpdate(parts: Parts<Row>, p: string, rows: seq<Row>)
    requires WideRows(parts) && Uniform(rows, 6)
    ensures WideRows(parts[p := rows])
  {
    hide Uniform;
  }

  lemma WideAppended(parts: Parts<Row>, p: string, row: Row, maxRows: nat)
    requires WideRows(parts) && |row| == 6
    ensures WideRows(Appended(parts, p, row, maxRows))
  {
    hide WideRows, Uniform, LastN, Buffered;
    WideBuffered(parts, p, row);
    WideLast(Buffered(parts, p) + [row], maxRows);
    WideUpdate(parts, p, LastN(Buffered(parts, p) + [row], maxRows));
  }

  /** The record's partition holds flushRows rows. */
  predicate FlushDue(s: State, rec: Record, o: Options) { |Buffered(s.parts, PartitionKey(rec))| >= o.flushRows }

  /** HandleRecord: append, and flush the partition once it holds flushRows rows. */
  function AfterRecord(s: State, rec: Record, r: Reply, o: Options): (t: State)
    requires WideRows(s.parts)
    ensures WideRows(t.parts)
  {
    var s' := AfterAppend(s, rec, o);
    if FlushDue(s', rec, o) then AfterFlush(s', PartitionKey(rec), r) else s'
  }

  /** The store and the buffers after one flush, case by case. */
  lemma FlushExact(s: State, part: string, r: Reply)
    requires WideRows(s.parts) && part in s.parts && s.parts[part] != []
    ensures var t, rows, key := AfterFlush(s, part, r), s.parts[part], FileKey(part, r.id);
            && (key.Some? && r.fault == Works ==>
                  t == State(s.parts - {part}, s.blob[key.value := FileText(rows)], s.flushed + [Batch(part, rows)]))
            && (key.Some? && r.fault == StoresThenFails ==> t == s.(blob := s.blob[key.value := FileText(rows)]))
            && (key == None || r.fault == Refuses ==> t == s)
  {
    hide FileKey, FileText;
  }

  /** The last n of the rows a partition holds once the record has joined them. */
  ghost predicate Joined(parts: Parts<Row>, rec: Record, n: nat, held: seq<Row>) {
    var all := (if PartitionKey(rec) in parts then parts[PartitionKey(rec)] else []) + [EncodeRow(rec)];
    if |all| <= n then held == all else |held| == n && held == all[|all| - n..]
  }

  lemma JoinedWide(s: State, rec: Record, o: Options, held: seq<Row>)
    requires WideRows(s.parts) && ValidOptions(o) && Joined(s.parts, rec, o.maxRows, held)
    ensures Uniform(held, 6) && held != []
    ensures AfterAppend(s, rec, o) == s.(parts := s.parts[PartitionKey(rec) := held])
  {
    hide PartitionKey, EncodeRow, WideRows, Uniform;
    EncodedWidth(rec);
    WideBuffered(s.parts, PartitionKey(rec), EncodeRow(rec));
    WideLast(Buffered(s.parts, PartitionKey(rec)) + [EncodeRow(rec)], o.maxRows);
  }

  /** What becomes of a partition's rows: below the threshold they stay; else they are put under the key, if the
      store takes it and does not refuse, and leave the buffer if the Put succeeds. */
  predicate Recorded(s: State, t: State, p: string, held: seq<Row>, due: bool, key: Option<string>, fault: Fault)
    requires NonEmptyRows(held)
  {
    if !due || key == None || fault == Refuses then t == s.(parts := s.parts[p := held])
    else if fault == StoresThenFails
    then t == State(s.parts[p := held], s.blob[key.value := FileText(held)], s.flushed)
    else t == State(s.parts - {p}, s.blob[key.value := FileText(held)], s.flushed + [Batch(p, held)])
  }

  /** A record joins its partition's rows, of which the last maxRows stay; from flushRows rows on they are put
      into one new file. */
  lemma RecordExact(s: State, rec: Record, r: Reply, o: Options, held: seq<Row>)
    requires WideRows(s.parts) && ValidOptions(o) && Joined(s.parts, rec, o.maxRows, held)
    ensures NonEmptyRows(held)
    ensures Recorded(s, AfterRecord(s, rec, r, o), PartitionKey(rec), held, |held| >= o.flushRows,
              FileKey(PartitionKey(rec), r.id), r.fault)
  {
    hide PartitionKey, EncodeRow, FileKey, FileText, WideRows, AfterFlush, AfterAppend, Joined;
    var p, a := PartitionKey(rec), AfterAppend(s, rec, o);
    JoinedWide(s, rec, o, held);
    assert a.parts - {p} == s.parts - {p};
    FlushExact(a, p, r);
  }

  /** Flush: the partitions in the order the map yielded them. */
  function AfterFlushes(s: State, order: seq<string>, replies: map<string, Reply>): (t: State)
    requires WideRows(s.parts) && forall p :: p in order ==> p in replies
    ensures WideRows(t.parts)
    decreases |order|
  {
    if order == [] then s else AfterFlushes(AfterFlush(s, order[0], replies[order[0]]), order[1..], replies)
  }

  lemma {:induction false} AfterFlushesAppend(s: State, order: seq<string>, p: string, replies: map<string, Reply>)
    requires WideRows(s.parts) && (forall p :: p in order ==> p in replies) && p in replies
    ensures AfterFlushes(s, order + [p], replies) == AfterFlush(AfterFlushes(s, order, replies), p, replies[p])
    decreases |order|
  {
    hide AfterFlush;
    if order == [] {
      assert order + [p] == [p];
    } else {
      assert (order + [p])[1..] == order[1..] + [p];
      AfterFlushesAppend(AfterFlush(s, order[0], replies[order[0]]), order[1..], p, replies);
    }
  }

  /* ---------- the writer ---------- */

  class Writer {
    const objects: Memory?
    const options: Options
    var parts: Parts<Row>
    ghost var flushed: seq<Batch<Row>>

    ghost predicate Valid()
      reads this
    {
      ValidOptions(options) && WideRows(parts)
    }

    ghost function Contents(): State
      requires objects != null
      reads this, objects
    {
      State(parts, objects.blob, flushed)
    }

    constructor (objects: Memory?, flushRows: int, maxRows: int)
      ensures Valid() && parts == map[] && flushed == [] && this.objects == objects
      ensures options == WithDefaults(flushRows, maxRows)
    {
      this.objects := objects;
      options := WithDefaults(flushRows, maxRows);
      parts := map[];
      flushed := [];
    }

    /** Put as the writer sees it through the Store interface. */
    method PutObject(key: string, body: string, fault: Fault) returns (err: bool)
      requires objects != null
      modifies objects
      ensures err <==> Paths.NormalizeKey(key) == Text.None || fault != Works
      ensures objects.blob == if Paths.NormalizeKey(key).Some? && fault != Refuses
                              then old(objects.blob)[Paths.NormalizeKey(key).value := body] else old(objects.blob)
    {
      if fault == Refuses { return true; }
      var ok := objects.Put(key, body);
      err := !ok || fault == StoresThenFails;
    }

    method Requeue(part: string, rows: seq<Row>)
      modifies this`parts
      ensures parts == Requeued(old(parts), part, rows)
    {
      if part !in parts {
        parts := parts[part := rows];
        assert rows + [] == rows;
      } else {
        parts := parts[part := rows + parts[part]];
      }
    }

    method FlushPartition(part: string, r: Reply) returns (err: bool)
      requires Valid() && objects != null
      modifies this`parts, this`flushed, objects
      ensures Valid() && Contents() == AfterFlush(old(Contents()), part, r)
      ensures err <==> Buffered(old(parts), part) != [] && !PutWorks(part, r)
    {
      hide FileText, PartitionKey, ObjectKey, EmitRow;
      if part !in parts || |parts[part]| == 0 { return false; }
      var rows := parts[part];
      parts := parts - {part};
      var body := WriteCsv(rows);
      var key := ObjectKey(part, r.id);
      err := PutObject(key, body, r.fault);
      if err {
        Requeue(part, rows);
        assert rows + [] == rows;
        assert parts == old(parts);
      } else {
        flushed := flushed + [Batch(part, rows)];
      }
    }

    /** The lock section of HandleRecord; the count decides whether to flush. */
    method Append(rec: Record) returns (n: nat)
      requires Valid() && objects != null
      modifies this`parts
      ensures Valid() && Contents() == AfterAppend(old(Contents()), rec, options)
      ensures n == |Buffered(parts, PartitionKey(rec))| >= 1
    {
      hide EncodeRow, PartitionKey;
      var part := PartitionKey(rec);
      var rows := (if part in parts then parts[part] else []) + [EncodeRow(rec)];
      EncodedWidth(rec);
      if |rows| > options.maxRows {
        var dropped := |rows| - options.maxRows;
        rows := rows[dropped..];
      }
      parts := parts[part := rows];
      n := |rows|;
    }

    method HandleRecord(rec: Record, r: Reply) returns (err: bool)
      requires Valid()
      modifies this`parts, this`flushed, objects
      ensures Valid()
      ensures objects == null ==> !err && parts == old(parts) && flushed == old(flushed)
      ensures objects != null ==> Contents() == AfterRecord(old(Contents()), rec, r, options)
      ensures objects != null ==>
                (err <==>
                   && FlushDue(AfterAppend(old(Contents()), rec, options), rec, options)
                   && !PutWorks(PartitionKey(rec), r))
    {
      hide PartitionKey, AfterFlush, AfterAppend, PutWorks;
      if objects == null { return false; }
      var n := Append(rec);
      if n >= options.flushRows {
        err := FlushPartition(PartitionKey(rec), r);
      } else {
        err := false;
      }
    }

    /** Every partition buffered at the start is flushed once, in some order; the first error is reported. */
    method Flush(replies: map<string, Reply>) returns (err: bool, ghost order: seq<string>)
      requires Valid() && objects != null && parts.Keys <= replies.Keys
      modifies this`parts, this`flushed, objects
      ensures Valid() && Elements(order) == old(parts).Keys && Distinct(order)
      ensures Contents() == AfterFlushes(old(Contents()), order, replies)
      ensures err <==> exists p :: p in old(parts) && old(parts)[p] != [] && !PutWorks(p, replies[p])
    {
      hide AfterFlush, PutWorks, FileKey, FileText;
      var keys := parts.Keys;
      order := [];
      err := false;
      while keys != {}
        invariant Valid() && keys <= old(parts).Keys
        invariant Elements(order) == old(parts).Keys - keys && Distinct(order)
        invariant forall p :: p in order ==> p in replies
        invariant Contents() == AfterFlushes(old(Contents()), order, replies)
        invariant err <==> exists p :: p in old(parts).Keys - keys && old(parts)[p] != [] && !PutWorks(p, replies[p])
        decreases keys
      {
        var k :| k in keys;
        keys := keys - {k};
        assert k !in Elements(order);
        AfterFlushesAppend(old(Contents()), order, k, replies);
        FlushesAt(old(Contents()), order, replies, k);
        assert Elements(order + [k]) == Elements(order) + {k};
        order := order + [k];
        var e := FlushPartition(k, replies[k]);
        assert e <==> old(parts)[k] != [] && !PutWorks(k, replies[k]);
        assert old(parts).Keys - keys == (old(parts).Keys - (keys + {k})) + {k};
        err := err || e;
      }
    }
  }

  /* ---------- runs of whole operations ---------- */

  /** One operation run to completion: a record, or a timed flush that found these partitions. */
  datatype Op = Arrive(rec: Record, reply: Reply) | Tick(order: seq<string>, replies: map<string, Reply>)

  predicate ValidOp(op: Op) { op.Tick? ==> Distinct(op.order) && forall p :: p in op.order ==> p in op.replies }

  predicate ValidRun(ops: seq<Op>) { forall i :: 0 <= i < |ops| ==> ValidOp(ops[i]) }

  function Run(ops: seq<Op>, o: Options): (s: State)
    requires ValidRun(ops)
    ensures WideRows(s.parts)
  {
    if ops == [] then State(map[], map[], [])
    else
      var s := Run(ops[..|ops| - 1], o);
      match ops[|ops| - 1]
      case Arrive(rec, reply) => AfterRecord(s, rec, reply, o)
      case Tick(order, replies) => AfterFlushes(s, order, replies)
  }

  /** The arrivals of partition p after its last successful flush, told from counts alone. */
  function Since(ops: seq<Op>, o: Options, p: string): (rows: seq<Row>)
    requires ValidRun(ops)
  {
    if ops == [] then []
    else
      var prev := Since(ops[..|ops| - 1], o, p);
      match ops[|ops| - 1]
      case Arrive(rec, reply) =>
        if PartitionKey(rec) != p then prev
        else
          var n := |prev| + 1;
          var held := if n < o.maxRows then n else o.maxRows;
          if held >= o.flushRows && PutWorks(p, reply) then [] else prev + [EncodeRow(rec)]
      case Tick(order, replies) => if p in order && PutWorks(p, replies[p]) then [] else prev
  }

  lemma FlushBuffered(s: State, part: string, r: Reply, p: string)
    requires WideRows(s.parts)
    ensures Buffered(AfterFlush(s, part, r).parts, p)
            == if p == part && PutWorks(part, r) then [] else Buffered(s.parts, p)
  {
    hide PutWorks, StoredBlob, WideRows, Buffered, Taken;
    BufferedTaken(s.parts, part, p);
  }

  lemma {:induction false} FlushesAt(s: State, order: seq<string>, replies: map<string, Reply>, p: string)
    requires WideRows(s.parts) && Distinct(order) && forall p :: p in order ==> p in replies
    ensures Buffered(AfterFlushes(s, order, replies).parts, p)
            == if p in order && PutWorks(p, replies[p]) then [] else Buffered(s.parts, p)
    decreases |order|
  {
    hide PutWorks, AfterFlush, WideRows, Buffered;
    if order != [] {
      FlushBuffered(s, order[0], replies[order[0]], p);
      FlushesAt(AfterFlush(s, order[0], replies[order[0]]), order[1..], replies, p);
      assert p in order <==> p == order[0] || p in order[1..];
      assert order[0] !in order[1..];
    }
  }

  /** A round of flushes empties exactly the partitions whose Put works, each into one file that holds all its rows. */
  lemma {:induction false} FlushesExact(s: State, order: seq<string>, replies: map<string, Reply>, p: string)
    requires WideRows(s.parts) && Distinct(order) && forall p :: p in order ==> p in replies
    ensures var t := AfterFlushes(s, order, replies);
            if p in order && PutWorks(p, replies[p])
            then Buffered(t.parts, p) == [] && RowsOf(t.flushed, p) == RowsOf(s.flushed, p) + Buffered(s.parts, p)
            else Buffered(t.parts, p) == Buffered(s.parts, p) && RowsOf(t.flushed, p) == RowsOf(s.flushed, p)
    decreases |order|
  {
    hide PutWorks, AfterFlush, WideRows, Buffered, RowsOf;
    FlushesAt(s, order, replies, p);
    if order != [] {
      FlushBuffered(s, order[0], replies[order[0]], p);
      FlushRows(s, order[0], replies[order[0]], p);
      FlushesExact(AfterFlush(s, order[0], replies[order[0]]), order[1..], replies, p);
      assert p in order <==> p == order[0] || p in order[1..];
      assert order[0] !in order[1..];
      assert RowsOf(s.flushed, p) + Buffered(s.parts, p) + [] == RowsOf(s.flushed, p) + Buffered(s.parts, p);
    }
  }

  lemma FlushRows(s: State, part: string, r: Reply, p: string)
    requires WideRows(s.parts)
    ensures RowsOf(AfterFlush(s, part, r).flushed, p)
            == RowsOf(s.flushed, p) + if p == part && PutWorks(part, r) then Buffered(s.parts, p) else []
  {
    hide PutWorks, StoredBlob, WideRows, Buffered, Taken, RowsOf;
    var rows := Buffered(s.parts, part);
    RowsOfAppend(s.flushed, Batch(part, rows), p);
    assert RowsOf(s.flushed, p) + [] == RowsOf(s.flushed, p);
  }

  lemma RecordBuffered(s: State, rec: Record, r: Reply, o: Options, p: string)
    requires WideRows(s.parts)
    ensures var k := PartitionKey(rec);
            var more := LastN(Buffered(s.parts, k) + [EncodeRow(rec)], o.maxRows);
            Buffered(AfterRecord(s, rec, r, o).parts, p)
            == if p != k then Buffered(s.parts, p) else if |more| >= o.flushRows && PutWorks(k, r) then [] else more
  {
    hide PutWorks, StoredBlob, WideRows, Buffered, Appended, LastN, EncodeRow, PartitionKey, AfterFlush;
    var k := PartitionKey(rec);
    BufferedAppended(s.parts, k, EncodeRow(rec), o.maxRows, k);
    BufferedAppended(s.parts, k, EncodeRow(rec), o.maxRows, p);
    FlushBuffered(AfterAppend(s, rec, o), k, r, p);
  }

  /** What a record does to the buffer of p, told from the window alone. */
  lemma ArriveWindow(s: State, rec: Record, r: Reply, o: Options, p: string, window: seq<Row>)
    requires WideRows(s.parts) && PartitionKey(rec) == p && Buffered(s.parts, p) == LastN(window, o.maxRows)
    ensures var more := LastN(window + [EncodeRow(rec)], o.maxRows);
            Buffered(AfterRecord(s, rec, r, o).parts, p) == if |more| >= o.flushRows && PutWorks(p, r) then [] else more
  {
    hide PutWorks, WideRows, Buffered, LastN, EncodeRow, PartitionKey, AfterRecord;
    RecordBuffered(s, rec, r, o, p);
    WindowSlides(window, EncodeRow(rec), o.maxRows);
  }

  lemma LastOfNone<T>(n: nat)
    ensures LastN<T>([], n) == []
  {
  }

  /** Run one operation at a time, a partition's buffer is exactly the last min(n, maxRows) of the n
      arrivals since its last successful flush, through any number of failed flushes. */
  lemma {:induction false} SlidingWindow(ops: seq<Op>, o: Options, p: string)
    requires ValidRun(ops) && ValidOptions(o)
    ensures Buffered(Run(ops, o).parts, p) == LastN(Since(ops, o, p), o.maxRows)
  {
    hide PutWorks, PartitionKey, EncodeRow, LastN, AfterRecord, AfterFlushes, Buffered, WideRows;
    LastOfNone<Row>(o.maxRows);
    if ops == [] {
      EmptyBuffers(o, p);
    } else {
      var front := ops[..|ops| - 1];
      SlidingWindow(front, o, p);
      var s, window := Run(front, o), Since(front, o, p);
      match ops[|ops| - 1]
      case Arrive(rec, reply) =>
        if PartitionKey(rec) == p {
          ArriveWindow(s, rec, reply, o, p, window);
        } else {
          RecordBuffered(s, rec, reply, o, p);
        }
      case Tick(order, replies) => FlushesAt(s, order, replies, p);
    }
  }

  lemma EmptyBuffers(o: Options, p: string)
    ensures Buffered(Run([], o).parts, p) == []
  {
  }

  /** All arrivals of partition p. */
  function Arrivals(ops: seq<Op>, p: string): seq<Row> {
    if ops == [] then []
    else
      var prev := Arrivals(ops[..|ops| - 1], p);
      match ops[|ops| - 1]
      case Arrive(rec, _) => if PartitionKey(rec) == p then prev + [EncodeRow(rec)] else prev
      case Tick(_, _) => prev
  }

  predicate AllPutsWork(ops: seq<Op>) {
    forall i :: 0 <= i < |ops| ==>
      match ops[i]
      case Arrive(rec, reply) => PutWorks(PartitionKey(rec), reply)
      case Tick(order, replies) => forall p :: p in order && p in replies ==> PutWorks(p, replies[p])
  }

  predicate SmallBatches(batches: seq<Batch<Row>>, n: nat) {
    forall i :: 0 <= i < |batches| ==> 1 <= |batches[i].rows| <= n
  }

  predicate BelowThreshold(parts: Parts<Row>, n: nat) { forall p :: p in parts ==> |parts[p]| < n }

  /** A partition's files in order, and then its buffer. */
  function RowLine(parts: Parts<Row>, flushed: seq<Batch<Row>>,
          p: string): seq<Row> { RowsOf(flushed, p) + Buffered(parts, p) }

  lemma BatchAdded(batches: seq<Batch<Row>>, b: Batch<Row>, n: nat)
    requires SmallBatches(batches, n) && 1 <= |b.rows| <= n
    ensures SmallBatches(batches + [b], n)
  {
  }

  lemma BelowUpdate(parts: Parts<Row>, p: string, rows: seq<Row>, n: nat)
    requires BelowThreshold(parts, n)
    ensures |rows| < n ==> BelowThreshold(parts[p := rows], n)
    ensures BelowThreshold(Taken(parts, p), n)
    ensures n > 0 ==> |Buffered(parts, p)| < n
  {
  }

  /** Rows that were buffered, with or without one more, become a file. */
  lemma LineFlushed(parts: Parts<Row>, flushed: seq<Batch<Row>>, k: string, more: seq<Row>, p: string)
    ensures var rows := Buffered(parts, k) + more;
            RowLine(Taken(parts, k), flushed + [Batch(k, rows)], p)
            == RowLine(parts, flushed, p) + if k == p then more else []
  {
    hide Buffered, Taken, RowsOf;
    var rows := Buffered(parts, k) + more;
    RowsOfAppend(flushed, Batch(k, rows), p);
    BufferedTaken(parts, k, p);
    Regroup(RowsOf(flushed, p), Buffered(parts, p), more);
  }

  lemma Regroup(a: seq<Row>, b: seq<Row>, c: seq<Row>)
    ensures a + (b + c) + [] == a + b + c && a + [] + b == a + b && a + b + [] == a + b
  {
  }

  lemma LineBuffered(parts: Parts<Row>, flushed: seq<Batch<Row>>, k: string, more: seq<Row>, p: string)
    ensures RowLine(parts[k := Buffered(parts, k) + more], flushed, p)
            == RowLine(parts, flushed, p) + if k == p then more else []
  {
    hide Buffered, RowsOf;
    BufferedUpdate(parts, k, Buffered(parts, k) + more, p);
    Regroup(RowsOf(flushed, p), Buffered(parts, p), more);
  }

  lemma FlushKeeps(s: State, part: string, r: Reply, n: nat, p: string)
    requires WideRows(s.parts) && PutWorks(part, r) && SmallBatches(s.flushed, n) && BelowThreshold(s.parts, n)
    ensures var t := AfterFlush(s, part, r);
            && SmallBatches(t.flushed, n) && BelowThreshold(t.parts, n)
            && RowLine(t.parts, t.flushed, p) == RowLine(s.parts, s.flushed, p)
  {
    hide PutWorks, StoredBlob, WideRows, Buffered, Taken, RowLine, SmallBatches, BelowThreshold;
    var rows := Buffered(s.parts, part);
    if rows != [] {
      LineFlushed(s.parts, s.flushed, part, [], p);
      assert rows + [] == rows && RowLine(s.parts, s.flushed, p) + [] == RowLine(s.parts, s.flushed, p);
      BelowAt(s.parts, part, n);
      BelowUpdate(s.parts, part, rows, n);
      BatchAdded(s.flushed, Batch(part, rows), n);
    }
  }

  lemma BelowAt(parts: Parts<Row>, p: string, n: nat)
    requires BelowThreshold(parts, n)
    ensures |Buffered(parts, p)| <= n
  {
  }

  lemma {:induction false} TickKeeps(s: State, order: seq<string>, replies: map<string, Reply>, n: nat, p: string)
    requires WideRows(s.parts) && (forall p :: p in order ==> p in replies && PutWorks(p, replies[p]))
    requires SmallBatches(s.flushed, n) && BelowThreshold(s.parts, n)
    ensures var t := AfterFlushes(s, order, replies);
            && SmallBatches(t.flushed, n) && BelowThreshold(t.parts, n)
            && RowLine(t.parts, t.flushed, p) == RowLine(s.parts, s.flushed, p)
    decreases |order|
  {
    hide PutWorks, AfterFlush, WideRows, RowLine, SmallBatches, BelowThreshold;
    if order != [] {
      FlushKeeps(s, order[0], replies[order[0]], n, p);
      TickKeeps(AfterFlush(s, order[0], replies[order[0]]), order[1..], replies, n, p);
    }
  }

  lemma ArriveState(s: State, rec: Record, r: Reply, o: Options)
    requires WideRows(s.parts) && ValidOptions(o) && o.flushRows <= o.maxRows && PutWorks(PartitionKey(rec), r)
    requires BelowThreshold(s.parts, o.flushRows)
    ensures var t, k := AfterRecord(s, rec, r, o), PartitionKey(rec);
            var rows := Buffered(s.parts, k) + [EncodeRow(rec)];
            if |rows| < o.flushRows then t.parts == s.parts[k := rows] && t.flushed == s.flushed
            else t.parts == Taken(s.parts, k) && t.flushed == s.flushed + [Batch(k, rows)]
  {
    hide PutWorks, StoredBlob, PartitionKey, EncodeRow, WideRows, Appended, Taken, LastN, Buffered, BelowThreshold;
    var k := PartitionKey(rec);
    BelowUpdate(s.parts, k, [], o.flushRows);
    RoomyAppend(s.parts, k, EncodeRow(rec), o.maxRows);
    BufferedUpdate(s.parts, k, Buffered(s.parts, k) + [EncodeRow(rec)], k);
  }

  lemma ArriveKeeps(s: State, rec: Record, r: Reply, o: Options, p: string)
    requires WideRows(s.parts) && ValidOptions(o) && o.flushRows <= o.maxRows && PutWorks(PartitionKey(rec), r)
    requires SmallBatches(s.flushed, o.flushRows) && BelowThreshold(s.parts, o.flushRows)
    ensures var t := AfterRecord(s, rec, r, o);
            && SmallBatches(t.flushed, o.flushRows) && BelowThreshold(t.parts, o.flushRows)
            && RowLine(t.parts, t.flushed, p)
               == RowLine(s.parts, s.flushed, p) + if PartitionKey(rec) == p then [EncodeRow(rec)] else []
  {
    hide PutWorks, AfterRecord, PartitionKey, EncodeRow, WideRows, RowLine, SmallBatches, BelowThreshold, Buffered,
      Taken;
    ArriveState(s, rec, r, o);
    var k, more := PartitionKey(rec), [EncodeRow(rec)];
    var rows := Buffered(s.parts, k) + more;
    BelowUpdate(s.parts, k, rows, o.flushRows);
    if |rows| >= o.flushRows {
      LineFlushed(s.parts, s.flushed, k, more, p);
      BatchAdded(s.flushed, Batch(k, rows), o.flushRows);
    } else {
      LineBuffered(s.parts, s.flushed, k, more, p);
    }
  }

  /** When every Put works and flushRows is at most maxRows nothing is dropped: a partition's files in
      order and then its buffer are its arrivals, and every file holds 1 to flushRows rows. */
  lemma {:induction false} NothingDropped(ops: seq<Op>, o: Options, p: string)
    requires ValidRun(ops) && ValidOptions(o) && o.flushRows <= o.maxRows && AllPutsWork(ops)
    ensures var s := Run(ops, o);
            && SmallBatches(s.flushed, o.flushRows) && BelowThreshold(s.parts, o.flushRows)
            && RowLine(s.parts, s.flushed, p) == Arrivals(ops, p)
  {
    hide PutWorks, PartitionKey, EncodeRow, AfterRecord, AfterFlushes, WideRows, RowLine, SmallBatches, BelowThreshold;
    if ops == [] {
      NothingYet(o, p);
    } else {
      var front := ops[..|ops| - 1];
      NothingDropped(front, o, p);
      var s := Run(front, o);
      match ops[|ops| - 1]
      case Arrive(rec, reply) =>
        ArriveKeeps(s, rec, reply, o, p);
      case Tick(order, replies) => TickKeeps(s, order, replies, o.flushRows, p);
    }
  }

  lemma NothingYet(o: Options, p: string)
    ensures var s := Run([], o);
            && SmallBatches(s.flushed, o.flushRows) && BelowThreshold(s.parts, o.flushRows)
                && RowLine(s.parts, s.flushed, p) == []
  {
  }
}
