/** The hand-over inside one export job: a goroutine merges into a pipe while Put reads the other end.
    The pipe has no buffer: a write returns once its bytes have been read, and the worker never closes
    the reading end. */
module Pipe {
  import opened Text
  import opened Telemetry
  import opened Keys
  import opened Paths
  import opened Storage
  import opened Csv
  import opened Merge

  /** What the merge writes, write by write, and whether it then fails. */
  datatype Source = Source(chunks: seq<string>, fails: bool)

  datatype Writer = Writing(rest: seq<string>) | Closed | Exited

  datatype Reader = Reading(got: string) | Returned(ok: bool)

  datatype State = State(writer: Writer, reader: Reader, stored: string)

  datatype Step =
    | ReadSome(n: nat)        // Put's Read takes n bytes of the write under way
    | Close                   // CloseWithError with the result of the merge
    | Send                    // the result goes into the buffered channel and the goroutine ends
    | ReadEnd(stores: bool)   // Read answers EOF or the merge's error; after EOF storing may still fail
    | GiveUp                  // Put returns an error without reading to the end

  predicate Chunks(c: seq<string>) { forall i :: 0 <= i < |c| ==> c[i] != "" }

  function Concat(c: seq<string>): string { if c == [] then "" else c[0] + Concat(c[1..]) }

  /** Put checks its key before it reads. */
  function Start(src: Source, keyOk: bool): State {
    State(Writing(src.chunks), if keyOk then Reading("") else Returned(false), "")
  }

  predicate Enabled(s: State, e: Step) {
    match e
    case ReadSome(n) => s.reader.Reading? && s.writer.Writing? && s.writer.rest != [] && 0 < n <= |s.writer.rest[0]|
    case Close => s.writer == Writing([])
    case Send => s.writer.Closed?
    case ReadEnd(stores) => s.reader.Reading? && !s.writer.Writing?
    case GiveUp => s.reader.Reading?
  }

  function Drop(rest: seq<string>, n: nat): seq<string>
    requires rest != [] && n <= |rest[0]|
  {
    if n == |rest[0]| then rest[1..] else [rest[0][n..]] + rest[1..]
  }

  function Apply(s: State, e: Step, src: Source): State
    requires Enabled(s, e)
  {
    match e
    case ReadSome(n) => s.(reader := Reading(s.reader.got + s.writer.rest[0][..n]),
        writer := Writing(Drop(s.writer.rest, n)))
    case Close => s.(writer := Closed)
    case Send => s.(writer := Exited)
    case ReadEnd(stores) =>
      if src.fails || !stores then s.(reader := Returned(false))
      else s.(reader := Returned(true), stored := s.reader.got)
    case GiveUp => s.(reader := Returned(false))
  }

  /** Both sides have returned, so process goes on. */
  predicate Done(s: State) { s.reader.Returned? && s.writer.Exited? }

  /** process records success. */
  predicate Succeeds(s: State, src: Source) { Done(s) && s.reader.ok && !src.fails }

  ghost predicate Stuck(s: State) { forall e :: !Enabled(s, e) }

  /** A run; patient when Put, once it reads, reads to the end or to an error. */
  predicate Valid(run: seq<Step>, src: Source, keyOk: bool)
    decreases |run|, 0
  {
    run == [] || (Valid(run[..|run| - 1], src, keyOk) && Enabled(After(run[..|run| - 1], src, keyOk), run[|run| - 1]))
  }

  function After(run: seq<Step>, src: Source, keyOk: bool): State
    requires Valid(run, src, keyOk)
    decreases |run|, 1
  {
    if run == [] then Start(src, keyOk) else Apply(After(run[..|run| - 1], src, keyOk), run[|run| - 1], src)
  }

  predicate Patient(run: seq<Step>) { forall i :: 0 <= i < |run| ==> run[i] != GiveUp }

  /* ---------- what every run keeps ---------- */

  predicate Inv(s: State, src: Source) {
    && (s.writer.Writing? ==> Chunks(s.writer.rest))
    && (s.reader.Reading? ==>
          s.reader.got + Concat(if s.writer.Writing? then s.writer.rest else []) == Concat(src.chunks))
    && (s.reader.Returned? && s.reader.ok ==> !s.writer.Writing? && !src.fails && s.stored == Concat(src.chunks))
  }

  lemma DropConcat(rest: seq<string>, n: nat)
    requires rest != [] && n <= |rest[0]|
    ensures rest[0][..n] + Concat(Drop(rest, n)) == Concat(rest)
  {
    var tail := Concat(rest[1..]);
    assert Drop(rest, n) == [rest[0][n..]] + rest[1..] || n == |rest[0]|;
    assert rest[0][..n] + (rest[0][n..] + tail) == rest[0] + tail;
  }

  lemma StepInv(s: State, e: Step, src: Source)
    requires Inv(s, src) && Enabled(s, e)
    ensures Inv(Apply(s, e, src), src)
  {
    hide Concat;
    if e.ReadSome? {
      var rest := s.writer.rest;
      DropConcat(rest, e.n);
      assert s.reader.got + rest[0][..e.n] + Concat(Drop(rest, e.n))
          == s.reader.got + (rest[0][..e.n] + Concat(Drop(rest, e.n)));
    }
    if e.ReadEnd? { NoChunks(s.reader.got); }
  }

  lemma NoChunks(got: string)
    ensures got + Concat([]) == got
  {
  }

  lemma {:induction false} RunInv(run: seq<Step>, src: Source, keyOk: bool)
    requires Valid(run, src, keyOk) && Chunks(src.chunks)
    ensures Inv(After(run, src, keyOk), src)
    ensures keyOk && Patient(run) && After(run, src, keyOk).reader.Returned? ==> !After(run, src, keyOk).writer.Writing?
    ensures !keyOk ==> After(run, src, keyOk).reader == Returned(false)
    ensures !keyOk ==>
              var w := After(run, src, keyOk).writer;
              (w.Writing? || src.chunks == []) && (w.Writing? ==> w.rest == src.chunks)
  {
    hide Inv;
    if run == [] {
      StartInv(src, keyOk);
    } else {
      var front := run[..|run| - 1];
      RunInv(front, src, keyOk);
      StepInv(After(front, src, keyOk), run[|run| - 1], src);
      assert Patient(run) ==> Patient(front) && run[|run| - 1] != GiveUp;
    }
  }

  lemma StartInv(src: Source, keyOk: bool)
    requires Chunks(src.chunks)
    ensures Inv(Start(src, keyOk), src)
  {
  }

  /* ---------- no run goes on forever ---------- */

  /** Bytes to hand over and calls to return. */
  function Work(s: State): nat {
    (if s.writer.Writing? then |Concat(s.writer.rest)| + 2 else if s.writer.Closed? then 1 else 0)
        + if s.reader.Reading? then 1 else 0
  }

  lemma StepWorks(s: State, e: Step, src: Source)
    requires Enabled(s, e)
    ensures Work(Apply(s, e, src)) < Work(s)
  {
    hide Concat;
    if e.ReadSome? { DropConcat(s.writer.rest, e.n); }
    if e.Close? { NoChunks(""); }
  }

  lemma {:induction false} RunsAreShort(run: seq<Step>, src: Source, keyOk: bool)
    requires Valid(run, src, keyOk)
    ensures |run| + Work(After(run, src, keyOk)) <= Work(Start(src, keyOk)) <= |Concat(src.chunks)| + 3
  {
    if run != [] {
      var front := run[..|run| - 1];
      RunsAreShort(front, src, keyOk);
      StepWorks(After(front, src, keyOk), run[|run| - 1], src);
    }
  }

  /** The one way to stop short of returning: Put has returned and a write waits for a reader. */
  lemma StuckWhere(s: State, src: Source)
    requires Inv(s, src)
    ensures Stuck(s) <==> Done(s) || (s.reader.Returned? && s.writer.Writing? && s.writer.rest != [])
  {
    hide Concat;
    if s.writer.Writing? && s.writer.rest != [] && s.reader.Reading? { assert Enabled(s, ReadSome(1)); }
    if s.writer.Writing? && s.writer.rest == [] { assert Enabled(s, Close); }
    if s.writer.Closed? { assert Enabled(s, Send); }
    if s.writer.Exited? && s.reader.Reading? { assert Enabled(s, ReadEnd(true)); }
  }

  /** The handshake. If Put accepts its key and reads until EOF or an error, every interleaving is
      finite and can only stop with both sides returned. Success means that the merge did not fail and
      the stored object is everything it wrote, in order. */
  lemma Handshake(run: seq<Step>, src: Source)
    requires Valid(run, src, true) && Chunks(src.chunks) && Patient(run)
    ensures |run| <= |Concat(src.chunks)| + 3
    ensures !Done(After(run, src, true)) ==> exists e :: Enabled(After(run, src, true), e) && e != GiveUp
    ensures Succeeds(After(run, src, true), src) ==> !src.fails && After(run, src, true).stored == Concat(src.chunks)
  {
    hide Concat, Valid, After;
    RunsAreShort(run, src, true);
    RunInv(run, src, true);
    var s := After(run, src, true);
    if s.writer.Writing? && s.writer.rest != [] && s.reader.Reading? { assert Enabled(s, ReadSome(1)); }
    if s.writer.Writing? && s.writer.rest == [] { assert Enabled(s, Close); }
    if s.writer.Closed? { assert Enabled(s, Send); }
    if s.writer.Exited? && s.reader.Reading? { assert Enabled(s, ReadEnd(true)); }
  }

  /** Success is recorded only for the whole file, also with a Put that may give up. */
  lemma SuccessIsWhole(run: seq<Step>, src: Source, keyOk: bool)
    requires Valid(run, src, keyOk) && Chunks(src.chunks) && Succeeds(After(run, src, keyOk), src)
    ensures keyOk && !src.fails && After(run, src, keyOk).stored == Concat(src.chunks)
  {
    RunInv(run, src, keyOk);
  }

  /** A Put that refuses its key returns before reading. Then process returns if and only if the merge
      fails before its first write; otherwise both goroutine and job are stuck for good. */
  lemma RefusedPut(run: seq<Step>, src: Source)
    requires Valid(run, src, false) && Chunks(src.chunks)
    ensures src.chunks != [] ==> Stuck(After(run, src, false)) && !Done(After(run, src, false))
    ensures src.chunks == [] && Stuck(After(run, src, false)) ==> Done(After(run, src, false))
  {
    hide Concat;
    RunInv(run, src, false);
    StuckWhere(After(run, src, false), src);
  }

  /** More generally a Put that gives up after reading leaves a stuck job exactly when bytes are left. */
  lemma GaveUp(run: seq<Step>, src: Source)
    requires Valid(run, src, true) && Chunks(src.chunks) && Enabled(After(run, src, true), GiveUp)
    ensures var s := After(run, src, true);
            var t := Apply(s, GiveUp, src);
            Stuck(t) && !Done(t) <==> s.reader.got != Concat(src.chunks)
  {
    var s := After(run, src, true);
    RunInv(run, src, true);
    StepInv(s, GiveUp, src);
    StuckWhere(Apply(s, GiveUp, src), src);
    NoChunks(s.reader.got);
    if s.writer.Writing? && s.writer.rest != [] { assert |Concat(s.writer.rest)| > 0; }
  }

  /* ---------- which jobs ---------- */

  /** The merge of these keys, cut into writes: all of the file when it succeeds. */
  predicate Merges(src: Source, blob: map<string, string>, keys: seq<string>, q: Query) {
    && Chunks(src.chunks)
    && (src.fails <==> MergeRows(blob, keys, q) == None)
    && (!src.fails ==> Some(Concat(src.chunks)) == MergedText(MergeRows(blob, keys, q)))
  }

  lemma HeaderShown(rows: seq<Row>)
    requires NonEmptyRows(rows)
    ensures FileText(rows) != ""
  {
  }

  /** A job whose merge would succeed finishes in every interleaving when the export prefix is safe, and
      in none when it has a `..` or a backslash. */
  lemma JobHangs(src: Source, blob: map<string, string>, keys: seq<string>, q: Query, prefix: string, job: Uuid,
          run: seq<Step>)
    requires Merges(src, blob, keys, q) && !src.fails
    requires var ok := NormalizeKey(ExportObjectKey(prefix, q.org, job)).Some?;
             Valid(run, src, ok) && Patient(run) && Stuck(After(run, src, ok))
    ensures var ok := NormalizeKey(ExportObjectKey(prefix, q.org, job)).Some?;
            Done(After(run, src, ok)) <==> !Unsafe(prefix)
  {
    hide NormalizeKey, ExportObjectKey, Unsafe, FileText, MergeRows, Valid, After, Apply, Enabled;
    ExportKeyRefused(prefix, q.org, job);
    HeaderShown(MergeRows(blob, keys, q).value);
    assert src.chunks != [];
    if NormalizeKey(ExportObjectKey(prefix, q.org, job)).Some? {
      Handshake(run, src);
    } else {
      RefusedPut(run, src);
    }
  }
}
