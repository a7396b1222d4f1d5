/** The partition buffers of the archive writer, as the three lock sections change them. Rows are of any
    type: the sequential writer buffers CSV rows, the concurrent model buffers numbered records. */
module Buffer {

  type Parts<T> = map<string, seq<T>>

  datatype Batch<T> = Batch(part: string, rows: seq<T>)

  /** The last n rows. */
  function LastN<T>(rows: seq<T>, n: nat): (r: seq<T>)
    ensures |r| == (if |rows| < n then |rows| else n) && r == rows[|rows| - |r|..]
  {
    if |rows| > n then rows[|rows| - n..] else rows
  }

  function Buffered<T>(parts: Parts<T>, p: string): seq<T> {
    if p in parts then parts[p] else []
  }

  /** HandleRecord under its lock: append, then drop the oldest rows beyond maxRows. */
  function Appended<T>(parts: Parts<T>, p: string, row: T, maxRows: nat): Parts<T> {
    parts[p := LastN(Buffered(parts, p) + [row], maxRows)]
  }

  /** flushPartition under its lock: the partition's buffer leaves the map. */
  function Taken<T>(parts: Parts<T>, p: string): Parts<T> { parts - {p} }

  /** requeue: failed rows go back in front of what arrived meanwhile, without trimming. */
  function Requeued<T>(parts: Parts<T>, p: string, rows: seq<T>): Parts<T> {
    parts[p := rows + Buffered(parts, p)]
  }

  /** The rows of a partition's batches, in order. */
  function RowsOf<T>(batches: seq<Batch<T>>, p: string): seq<T> {
    if batches == [] then []
    else (if batches[0].part == p then batches[0].rows else []) + RowsOf(batches[1..], p)
  }

  lemma {:induction false} RowsOfAppend<T>(batches: seq<Batch<T>>, b: Batch<T>, p: string)
    ensures RowsOf(batches + [b], p) == RowsOf(batches, p) + if b.part == p then b.rows else []
  {
    var rows := if b.part == p then b.rows else [];
    if batches == [] {
      assert batches + [b] == [b] && [b][1..] == [];
      assert RowsOf([b], p) == rows + [] == [] + rows;
    } else {
      assert RowsOf(batches[1..], p) + rows == RowsOf(batches[1..], p) + rows;
      assert (batches + [b])[1..] == batches[1..] + [b];
      RowsOfAppend(batches[1..], b, p);
    }
  }

  /** Trimming twice is trimming once: a window slides. */
  lemma WindowSlides<T>(rows: seq<T>, row: T, n: nat)
    ensures LastN(LastN(rows, n) + [row], n) == LastN(rows + [row], n)
  {
  }

  lemma LastAll<T>(rows: seq<T>, n: nat)
    requires |rows| <= n
    ensures LastN(rows, n) == rows
  {
  }

  lemma TakenAgain<T>(parts: Parts<T>, p: string, rows: seq<T>)
    ensures Taken(parts[p := rows], p) == Taken(parts, p)
  {
  }

  /** A buffer with room loses nothing to an append. */
  lemma RoomyAppend<T>(parts: Parts<T>, p: string, row: T, n: nat)
    requires |Buffered(parts, p)| < n
    ensures Appended(parts, p, row, n) == parts[p := Buffered(parts, p) + [row]]
    ensures Taken(Appended(parts, p, row, n), p) == Taken(parts, p)
  {
    hide LastN, Taken, Buffered;
    var rows := Buffered(parts, p) + [row];
    LastAll(rows, n);
    TakenAgain(parts, p, rows);
  }

  lemma BufferedAppended<T>(parts: Parts<T>, p: string, row: T, n: nat, q: string)
    ensures Buffered(Appended(parts, p, row, n), q)
            == if q == p then LastN(Buffered(parts, p) + [row], n) else Buffered(parts, q)
  {
    hide LastN;
  }

  lemma BufferedTaken<T>(parts: Parts<T>, p: string, q: string)
    ensures Buffered(Taken(parts, p), q) == if q == p then [] else Buffered(parts, q)
  {
  }

  lemma BufferedUpdate<T>(parts: Parts<T>, p: string, rows: seq<T>, q: string)
    ensures Buffered(parts[p := rows], q) == if q == p then rows else Buffered(parts, q)
  {
  }
}
