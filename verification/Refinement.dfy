/** The sequential writer is one way to run the concurrent one: each of its operations is a few steps of
    the interleaved model, so what holds of every run holds of it. */
module Refinement {
  import opened Telemetry
  import opened Keys
  import opened Storage
  import opened Csv
  import opened Buffer
  import opened Archive
  import ArchiveOrder
  import W = Writer

  /** The rows of buffered records. */
  function ItemRows(items: seq<Item>): (r: seq<Row>)
    ensures |r| == |items| && Uniform(r, 6)
  {
    Rows(Recs(items))
  }

  function RowParts(parts: Parts<Item>): Parts<Row> { map p | p in parts :: ItemRows(parts[p]) }

  /** The same buffers and the same store, and no flush under way. */
  predicate Related(w: W.State, s: State) {
    w.parts == RowParts(s.parts) && w.blob == s.blob && s.flights == map[]
  }

  lemma BufferedRows(parts: Parts<Item>, p: string)
    ensures Buffered(RowParts(parts), p) == ItemRows(Buffered(parts, p))
  {
  }

  lemma RowsNext(items: seq<Item>, x: Item)
    ensures ItemRows(items + [x]) == ItemRows(items) + [EncodeRow(x.rec)]
  {
    hide EncodeRow;
  }

  lemma RowsLast(items: seq<Item>, n: nat)
    ensures ItemRows(LastN(items, n)) == LastN(ItemRows(items), n)
  {
    hide EncodeRow;
  }

  lemma AppendedRows(parts: Parts<Item>, p: string, x: Item, n: nat)
    ensures RowParts(Appended(parts, p, x, n)) == Appended(RowParts(parts), p, EncodeRow(x.rec), n)
  {
    hide EncodeRow, ItemRows, LastN;
    BufferedRows(parts, p);
    RowsNext(Buffered(parts, p), x);
    RowsLast(Buffered(parts, p) + [x], n);
  }

  /** A flush is Take, then PutOk, or PutErr and Requeue. */
  lemma FlushRefines(acts: seq<Action>, maxRows: nat, w: W.State, part: string,
          r: W.Reply) returns (longer: seq<Action>)
    requires ValidRun(acts, maxRows) && W.WideRows(w.parts) && Related(w, End(acts, maxRows))
    requires r.id !in End(acts, maxRows).ids
    ensures ValidRun(longer, maxRows) && Related(W.AfterFlush(w, part, r), End(longer, maxRows))
    ensures End(longer, maxRows).ids <= End(acts, maxRows).ids + {r.id}
    ensures End(longer, maxRows).log == End(acts, maxRows).log
  {
    hide ValidRun, End, FileKey, FileText, EncodeRow, Rows, RowParts, Recs;
    var s := End(acts, maxRows);
    BufferedRows(s.parts, part);
    var rows := Buffered(s.parts, part);
    if rows == [] {
      longer := acts;
    } else {
      ArchiveOrder.Extend(acts, Take(part, r.id), maxRows);
      var taken := acts + [Take(part, r.id)];
      if W.PutWorks(part, r) {
        ArchiveOrder.Extend(taken, PutOk(r.id), maxRows);
        longer := taken + [PutOk(r.id)];
        TakenRows(s.parts, part);
      } else {
        var stored := FileKey(part, r.id).Some? && r.fault != W.Refuses;
        ArchiveOrder.Extend(taken, PutErr(r.id, stored), maxRows);
        var failed := taken + [PutErr(r.id, stored)];
        ArchiveOrder.Extend(failed, Requeue(r.id), maxRows);
        longer := failed + [Requeue(r.id)];
        assert rows + [] == rows;
        assert Requeued(Taken(s.parts, part), part, rows) == s.parts;
      }
    }
  }

  lemma TakenRows(parts: Parts<Item>, p: string)
    ensures RowParts(Taken(parts, p)) == Taken(RowParts(parts), p)
  {
  }

  lemma RecordRefines(acts: seq<Action>, o: W.Options, w: W.State, rec: Record,
          r: W.Reply) returns (longer: seq<Action>)
    requires ValidRun(acts, o.maxRows) && W.WideRows(w.parts) && Related(w, End(acts, o.maxRows))
    requires r.id !in End(acts, o.maxRows).ids
    requires Accepted(rec)
    ensures ValidRun(longer, o.maxRows) && Related(W.AfterRecord(w, rec, r, o), End(longer, o.maxRows))
    ensures End(longer, o.maxRows).ids <= End(acts, o.maxRows).ids + {r.id}
    ensures End(longer, o.maxRows).log == End(acts, o.maxRows).log + [rec]
  {
    hide ValidRun, End, PartitionKey, Related, W.AfterAppend, W.AfterFlush, Apply, Accepted;
    longer := acts + [Accept(rec)];
    AcceptRefines(acts, o, w, rec);
    var w' := W.AfterAppend(w, rec, o);
    if |Buffered(w'.parts, PartitionKey(rec))| >= o.flushRows {
      longer := FlushRefines(longer, o.maxRows, w', PartitionKey(rec), r);
    }
  }

  lemma AcceptRefines(acts: seq<Action>, o: W.Options, w: W.State, rec: Record)
    requires ValidRun(acts, o.maxRows) && W.WideRows(w.parts) && Related(w, End(acts, o.maxRows)) && Accepted(rec)
    ensures var longer := acts + [Accept(rec)];
            && ValidRun(longer, o.maxRows) && Related(W.AfterAppend(w, rec, o), End(longer, o.maxRows))
            && End(longer, o.maxRows).ids == End(acts, o.maxRows).ids
                && End(longer, o.maxRows).log == End(acts, o.maxRows).log + [rec]
  {
    hide ValidRun, End, EncodeRow, PartitionKey, RowParts, Appended, Overflow, Accepted;
    ArchiveOrder.Extend(acts, Accept(rec), o.maxRows);
    var s := End(acts, o.maxRows);
    AppendedRows(s.parts, PartitionKey(rec), Item(|s.log|, rec), o.maxRows);
  }

  /** The file ids of an operation, in order. */
  function IdsIn(order: seq<string>, replies: map<string, W.Reply>): set<Uuid>
    requires forall p :: p in order ==> p in replies
  {
    set p | p in order :: replies[p].id
  }

  predicate FreshTick(order: seq<string>, replies: map<string, W.Reply>)
    requires forall p :: p in order ==> p in replies
  {
    forall i, j :: 0 <= i < j < |order| ==> replies[order[i]].id != replies[order[j]].id
  }

  lemma {:induction false} TickRefines(acts: seq<Action>, maxRows: nat, w: W.State, order: seq<string>,
          replies: map<string, W.Reply>) returns (longer: seq<Action>)
    requires ValidRun(acts, maxRows) && W.WideRows(w.parts) && Related(w, End(acts, maxRows))
    requires (forall p :: p in order ==> p in replies) && FreshTick(order, replies)
        && IdsIn(order, replies) !! End(acts, maxRows).ids
    ensures ValidRun(longer, maxRows) && Related(W.AfterFlushes(w, order, replies), End(longer, maxRows))
    ensures End(longer, maxRows).ids <= End(acts, maxRows).ids + IdsIn(order, replies)
    ensures End(longer, maxRows).log == End(acts, maxRows).log
    decreases |order|
  {
    hide ValidRun, End, Related, W.AfterFlush;
    longer := acts;
    if order != [] {
      var id := replies[order[0]].id;
      assert id in IdsIn(order, replies);
      longer := FlushRefines(acts, maxRows, w, order[0], replies[order[0]]);
      forall x | x in IdsIn(order[1..], replies) ensures x in IdsIn(order, replies) && x != id {
        var p :| p in order[1..] && replies[p].id == x;
        var k :| 1 <= k < |order| && order[k] == p;
        assert replies[order[0]].id != replies[order[k]].id;
      }
      longer := TickRefines(longer, maxRows, W.AfterFlush(w, order[0], replies[order[0]]), order[1..], replies);
    }
  }

  function OpIds(op: W.Op): set<Uuid>
    requires W.ValidOp(op)
  {
    if op.Arrive? then {op.reply.id} else IdsIn(op.order, op.replies)
  }

  function RunIds(ops: seq<W.Op>): set<Uuid>
    requires W.ValidRun(ops)
  {
    if ops == [] then {} else RunIds(ops[..|ops| - 1]) + OpIds(ops[|ops| - 1])
  }

  /** newID never repeats. */
  predicate FreshRun(ops: seq<W.Op>)
    requires W.ValidRun(ops)
  {
    ops == [] ||
    var op := ops[|ops| - 1];
    && FreshRun(ops[..|ops| - 1])
    && OpIds(op) !! RunIds(ops[..|ops| - 1])
    && (op.Tick? ==> FreshTick(op.order, op.replies))
  }

  function Arrived(ops: seq<W.Op>): seq<Record> {
    if ops == [] then []
    else Arrived(ops[..|ops| - 1]) + if ops[|ops| - 1].Arrive? then [ops[|ops| - 1].rec] else []
  }

  /** Every run of the sequential writer is a run of the concurrent one, with the same store, the same
      buffers and the same arrivals. */
  lemma {:induction false} WriterRefines(ops: seq<W.Op>, o: W.Options) returns (acts: seq<Action>)
    requires W.ValidRun(ops) && FreshRun(ops) && forall i :: 0 <= i < |Arrived(ops)| ==> Accepted(Arrived(ops)[i])
    ensures ValidRun(acts, o.maxRows) && Related(W.Run(ops, o), End(acts, o.maxRows))
    ensures End(acts, o.maxRows).ids <= RunIds(ops) && End(acts, o.maxRows).log == Arrived(ops)
  {
    hide ValidRun, End, Related, W.AfterFlushes, W.AfterRecord, Accepted;
    acts := [];
    if ops == [] {
      Starts(o);
    } else {
      var front, op := ops[..|ops| - 1], ops[|ops| - 1];
      forall i | 0 <= i < |Arrived(front)| ensures Accepted(Arrived(front)[i]) {
        assert Arrived(front)[i] == Arrived(ops)[i];
      }
      acts := WriterRefines(front, o);
      if op.Arrive? {
        assert Arrived(ops)[|Arrived(front)|] == op.rec;
        acts := RecordRefines(acts, o, W.Run(front, o), op.rec, op.reply);
      } else {
        acts := TickRefines(acts, o.maxRows, W.Run(front, o), op.order, op.replies);
      }
    }
  }

  lemma Starts(o: W.Options)
    ensures ValidRun([], o.maxRows) && End([], o.maxRows) == INIT && Related(W.Run([], o), INIT)
  {
    assert RowParts(map[]) == map[];
  }
}
