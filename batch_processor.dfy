/** The batch orchestrator (batch_processor.py): the file list is cut into
    consecutive slices of `batch_size`, each slice is processed concurrently,
    its records are saved one by one in input order once every task of the
    slice has finished, the outcomes are tallied, and the run pauses two
    seconds between slices.

    Concurrency is not modelled: `asyncio.gather` is an order-preserving map
    over the slice, and a sleep is recorded in the log of the slice it
    follows. */
module BatchProcessor {
  import opened Wrappers
  import opened PdfProcessor

  /** The pause between two batches, in seconds. */
  const InterBatchDelay: nat := 2
  /** The default `batch_size` of `batch_process_papers`. */
  const DefaultBatchSize: nat := 10

  function Min(a: int, b: int): int {
    if a <= b then a else b
  }

  // ================================================================ one batch

  /** One entry of `gather(..., return_exceptions=True)`: the exception a task
      raised, or the `(record, error)` pair it returned. */
  datatype TaskResult =
    | TaskRaised(exception: string)
    | TaskReturned(record: Record, error: Option<string>)

  /** `if isinstance(result, Exception)` or `if error:`; an empty error
      string is falsy and counts as a success. */
  predicate Failed(t: TaskResult) {
    t.TaskRaised? || (t.error.Some? && t.error.value != "")
  }

  /** The record the batch saves for a task. */
  function RecordFor(name: string, t: TaskResult): (r: Record)
    ensures r.filename == name || t.TaskReturned?
    ensures t.TaskRaised? ==> r == Placeholder(name)
  {
    match t
    case TaskRaised(_) => Placeholder(name)
    case TaskReturned(record, _) => record
  }

  function CountFailed(ts: seq<TaskResult>): (c: nat)
    ensures c <= |ts|
  {
    if ts == [] then 0
    else CountFailed(ts[..|ts| - 1]) + (if Failed(ts[|ts| - 1]) then 1 else 0)
  }

  function CountSucceeded(ts: seq<TaskResult>): (c: nat)
    ensures c <= |ts|
  {
    if ts == [] then 0
    else CountSucceeded(ts[..|ts| - 1]) + (if Failed(ts[|ts| - 1]) then 0 else 1)
  }

  /** Every result is counted exactly once. */
  lemma {:induction false} CountsCoverBatch(ts: seq<TaskResult>)
    ensures CountSucceeded(ts) + CountFailed(ts) == |ts|
  {
    if ts != [] {
      CountsCoverBatch(ts[..|ts| - 1]);
    }
  }

  /** Tallies of consecutive slices add up. */
  lemma {:induction false} CountsAppend(a: seq<TaskResult>, b: seq<TaskResult>)
    ensures CountFailed(a + b) == CountFailed(a) + CountFailed(b)
    ensures CountSucceeded(a + b) == CountSucceeded(a) + CountSucceeded(b)
    decreases |b|
  {
    if b == [] {
      assert a + b == a;
    } else {
      CountsAppend(a, b[..|b| - 1]);
      assert (a + b)[..|a + b| - 1] == a + b[..|b| - 1];
      assert (a + b)[|a + b| - 1] == b[|b| - 1];
    }
  }

  /** A task that returned an empty error message is a success. */
  lemma EmptyErrorIsSuccess(record: Record)
    ensures CountSucceeded([TaskReturned(record, Some(""))]) == 1
    ensures CountFailed([TaskReturned(record, Some(""))]) == 0
  {
    assert [TaskReturned(record, Some(""))][..0] == [];
  }

  /** What a document's task returns: `process_single_pdf` is
      `ProcessWith(parse)`; the batch is stated for any such function. */
  type Processor = DocInput -> Processed

  function ProcessWith(parse: JsonParser): Processor {
    doc => ProcessSpec(doc, parse)
  }

  /** What the gather hands back for one document. */
  function Gather(doc: DocInput, process: Processor): (t: TaskResult)
    ensures t.TaskReturned?
  {
    TaskReturned(process(doc).record, process(doc).error)
  }

  /** The record saved for a document carries its name, and a failed one is
      the clean placeholder. */
  lemma GatherNamesRecord(doc: DocInput, parse: JsonParser)
    ensures RecordFor(doc.name, Gather(doc, ProcessWith(parse))).filename == doc.name
    ensures Failed(Gather(doc, ProcessWith(parse))) ==>
      RecordFor(doc.name, Gather(doc, ProcessWith(parse))) == Placeholder(doc.name)
  {
  }

  /** `asyncio.gather` over the documents: one result per document, in order. */
  function Gathered(docs: seq<DocInput>, process: Processor): (ts: seq<TaskResult>)
    ensures |ts| == |docs|
    ensures forall i :: 0 <= i < |docs| ==> ts[i] == Gather(docs[i], process)
  {
    seq(|docs|, i requires 0 <= i < |docs| => Gather(docs[i], process))
  }

  lemma GatheredAppend(a: seq<DocInput>, b: seq<DocInput>, process: Processor)
    ensures Gathered(a + b, process) == Gathered(a, process) + Gathered(b, process)
  {
    assert forall i :: 0 <= i < |a + b| ==>
      Gathered(a + b, process)[i] == (Gathered(a, process) + Gathered(b, process))[i];
  }

  /** The workbook's state: whether the file exists, and its rows. */
  datatype Book = Book(present: bool, rows: seq<Record>)

  /** One `save_to_excel` call whose failure is printed and swallowed. */
  function SaveOne(b: Book, doc: DocInput, record: Record): (b': Book)
    ensures doc.saveError.Some? ==> b' == b
    ensures doc.saveError.None? ==> b'.present && b'.rows == b.rows + [Stamp(record, doc.now)]
  {
    if doc.saveError.Some? then b else Book(true, b.rows + [Stamp(record, doc.now)])
  }

  /** The saves of one batch, in input order. */
  function SaveAll(b: Book, docs: seq<DocInput>, ts: seq<TaskResult>): (b': Book)
    requires |docs| == |ts|
    ensures |b.rows| <= |b'.rows| <= |b.rows| + |docs|
    ensures b'.rows[..|b.rows|] == b.rows
    ensures b.present ==> b'.present
  {
    if docs == [] then b
    else
      var n := |docs| - 1;
      var before := SaveAll(b, docs[..n], ts[..n]);
      var after := SaveOne(before, docs[n], RecordFor(docs[n].name, ts[n]));
      assert after.rows[..|before.rows|] == before.rows;
      assert after.rows[..|b.rows|] == before.rows[..|b.rows|];
      after
  }

  /** Saving two consecutive slices is saving their concatenation. */
  lemma {:induction false} SaveAllAppend(
    b: Book, d1: seq<DocInput>, t1: seq<TaskResult>, d2: seq<DocInput>, t2: seq<TaskResult>)
    requires |d1| == |t1| && |d2| == |t2|
    ensures SaveAll(b, d1 + d2, t1 + t2) == SaveAll(SaveAll(b, d1, t1), d2, t2)
    decreases |d2|
  {
    if d2 == [] {
      assert d1 + d2 == d1;
      assert t1 + t2 == t1;
    } else {
      var n := |d2| - 1;
      SaveAllAppend(b, d1, t1, d2[..n], t2[..n]);
      assert (d1 + d2)[..|d1 + d2| - 1] == d1 + d2[..n];
      assert (t1 + t2)[..|t1 + t2| - 1] == t1 + t2[..n];
      assert (d1 + d2)[|d1 + d2| - 1] == d2[n];
      assert (t1 + t2)[|t1 + t2| - 1] == t2[n];
    }
  }

  /** When no save fails, the workbook gains exactly the batch's records,
      stamped, in input order, failures included. */
  lemma {:induction false} SaveAllInOrder(b: Book, docs: seq<DocInput>, ts: seq<TaskResult>)
    requires |docs| == |ts|
    requires forall i :: 0 <= i < |docs| ==> docs[i].saveError.None?
    ensures |SaveAll(b, docs, ts).rows| == |b.rows| + |docs|
    ensures forall i :: 0 <= i < |docs| ==>
      SaveAll(b, docs, ts).rows[|b.rows| + i] == Stamp(RecordFor(docs[i].name, ts[i]), docs[i].now)
    decreases |docs|
  {
    if docs != [] {
      var n := |docs| - 1;
      SaveAllInOrder(b, docs[..n], ts[..n]);
      var before := SaveAll(b, docs[..n], ts[..n]);
      assert forall i :: 0 <= i < n ==> docs[..n][i] == docs[i] && ts[..n][i] == ts[i];
      assert SaveAll(b, docs, ts).rows == before.rows + [Stamp(RecordFor(docs[n].name, ts[n]), docs[n].now)];
    }
  }

  /** A document whose save fails leaves no row behind. */
  lemma SaveFailureSkipsRow(b: Book, doc: DocInput, t: TaskResult)
    requires doc.saveError.Some?
    ensures SaveAll(b, [doc], [t]) == b
  {
    assert [doc][..0] == [] && [t][..0] == [];
  }

  /** Handling result `i` after the first `i`: one more tally and one more save. */
  lemma {:induction false} TallyStep(b: Book, docs: seq<DocInput>, results: seq<TaskResult>, i: nat)
    requires |results| == |docs| && i < |docs|
    ensures CountSucceeded(results[..i + 1])
         == CountSucceeded(results[..i]) + (if Failed(results[i]) then 0 else 1)
    ensures CountFailed(results[..i + 1])
         == CountFailed(results[..i]) + (if Failed(results[i]) then 1 else 0)
    ensures SaveAll(b, docs[..i + 1], results[..i + 1])
         == SaveOne(SaveAll(b, docs[..i], results[..i]), docs[i], RecordFor(docs[i].name, results[i]))
  {
    assert results[..i + 1][..i] == results[..i];
    assert docs[..i + 1][..i] == docs[..i];
  }

  /** `process_pdf_batch` after the gather: tally each result and save its
      record, in input order. */
  method ProcessPdfBatch(book: ExcelFile, docs: seq<DocInput>, results: seq<TaskResult>)
    returns (successful: nat, failed: nat)
    requires |results| == |docs|
    requires book.Valid()
    modifies book
    ensures book.Valid()
    ensures successful == CountSucceeded(results) && failed == CountFailed(results)
    ensures successful + failed == |docs|
    ensures Book(book.present, book.rows) == SaveAll(Book(old(book.present), old(book.rows)), docs, results)
  {
    ghost var start := Book(book.present, book.rows);
    successful, failed := 0, 0;
    var i := 0;
    while i < |results|
      invariant 0 <= i <= |results|
      invariant book.Valid()
      invariant successful == CountSucceeded(results[..i])
      invariant failed == CountFailed(results[..i])
      invariant Book(book.present, book.rows) == SaveAll(start, docs[..i], results[..i])
    {
      TallyStep(start, docs, results, i);
      var result := results[i];
      var record: Record;
      if result.TaskRaised? {
        record := Placeholder(docs[i].name);
        failed := failed + 1;
      } else {
        record := result.record;
        if result.error.Some? && result.error.value != "" {
          failed := failed + 1;
        } else {
          successful := successful + 1;
        }
      }
      ghost var before := Book(book.present, book.rows);
      var _, _ := book.SaveToExcel(record, docs[i].now, docs[i].saveError);
      assert Book(book.present, book.rows) == SaveOne(before, docs[i], record);
      i := i + 1;
    }
    assert results[..i] == results;
    assert docs[..i] == docs;
    CountsCoverBatch(results);
  }

  /** Processing the files up to `i` and then the slice `i..end` is
      processing the files up to `end`: tallies add up and the saves line up. */
  lemma NextSlice(start: Book, docs: seq<DocInput>, ts: seq<TaskResult>, i: nat, end: nat)
    requires |ts| == |docs| && i <= end <= |docs|
    ensures CountSucceeded(ts[..end]) == CountSucceeded(ts[..i]) + CountSucceeded(ts[i..end])
    ensures CountFailed(ts[..end]) == CountFailed(ts[..i]) + CountFailed(ts[i..end])
    ensures SaveAll(start, docs[..end], ts[..end])
         == SaveAll(SaveAll(start, docs[..i], ts[..i]), docs[i..end], ts[i..end])
  {
    assert docs[..end] == docs[..i] + docs[i..end];
    assert ts[..end] == ts[..i] + ts[i..end];
    CountsAppend(ts[..i], ts[i..end]);
    SaveAllAppend(start, docs[..i], ts[..i], docs[i..end], ts[i..end]);
  }

  /** Gathering a slice is slicing the gather. */
  lemma GatheredSlice(docs: seq<DocInput>, process: Processor, i: nat, end: nat)
    requires i <= end <= |docs|
    ensures Gathered(docs[i..end], process) == Gathered(docs, process)[i..end]
  {
  }

  /** The list comprehension of tasks, awaited by the gather: each document
      goes through `process`. */
  method GatherBatch(docs: seq<DocInput>, process: Processor) returns (results: seq<TaskResult>)
    ensures results == Gathered(docs, process)
  {
    results := [];
    var i := 0;
    while i < |docs|
      invariant 0 <= i <= |docs|
      invariant |results| == i
      invariant forall k :: 0 <= k < i ==> results[k] == Gather(docs[k], process)
    {
      var outcome := process(docs[i]);
      results := results + [TaskReturned(outcome.record, outcome.error)];
      i := i + 1;
    }
  }

  /** A task that ran `process_single_pdf` returned what `Gather` says. */
  lemma GatherWith(doc: DocInput, parse: JsonParser, record: Record, error: Option<string>)
    requires Processed(record, error) == ProcessSpec(doc, parse)
    ensures TaskReturned(record, error) == Gather(doc, ProcessWith(parse))
  {
  }

  /** Each task of the batch runs `process_single_pdf`. */
  method GatherBatchWith(docs: seq<DocInput>, parse: JsonParser) returns (results: seq<TaskResult>)
    ensures results == Gathered(docs, ProcessWith(parse))
  {
    results := [];
    var i := 0;
    while i < |docs|
      invariant 0 <= i <= |docs|
      invariant |results| == i
      invariant forall k :: 0 <= k < i ==> results[k] == Gather(docs[k], ProcessWith(parse))
    {
      var record, error := ProcessSinglePdf(docs[i], parse);
      GatherWith(docs[i], parse, record, error);
      results := results + [TaskReturned(record, error)];
      i := i + 1;
    }
  }

  // ================================================================ partition

  /** Where batch `j` starts: `i = j * bs`, the `j`-th value of
      `range(0, n, bs)`. */
  function Start(j: nat, bs: nat): nat {
    if j == 0 then 0 else Start(j - 1, bs) + bs
  }

  /** How many batches `range(0, n, bs)` yields. */
  function BatchCount(n: nat, bs: nat): nat
    requires bs > 0
    decreases n
  {
    if n == 0 then 0 else if n <= bs then 1 else 1 + BatchCount(n - bs, bs)
  }

  lemma {:induction false} StartIsProduct(j: nat, bs: nat)
    ensures Start(j, bs) == j * bs
  {
    if j > 0 {
      StartIsProduct(j - 1, bs);
    }
  }

  /** Starting `j` batches later in the list and cutting `bs` files off the
      front are the same. */
  lemma {:induction false} StartShift(j: nat, bs: nat)
    ensures Start(j + 1, bs) == bs + Start(j, bs)
  {
    if j > 0 {
      StartShift(j - 1, bs);
    }
  }

  /** There are `ceil(n / bs)` batches. */
  lemma {:induction false} BatchCountIsCeiling(n: nat, bs: nat)
    requires bs > 0
    ensures BatchCount(n, bs) == (n + bs - 1) / bs
    decreases n
  {
    if n == 0 {
      DivUnique(bs - 1, bs, 0, bs - 1);
    } else if n <= bs {
      DivUnique(n + bs - 1, bs, 1, n - 1);
    } else {
      BatchCountIsCeiling(n - bs, bs);
      DivUnique(n + bs - 1, bs, (n - 1) / bs + 1, (n - 1) % bs);
    }
  }

  /** Batch `j` starts before the end of the list exactly when it exists. */
  lemma {:induction false} BatchStartInRange(n: nat, bs: nat, j: nat)
    requires bs > 0
    ensures Start(j, bs) < n <==> j < BatchCount(n, bs)
    decreases n
  {
    if j > 0 {
      StartShift(j - 1, bs);
      if n > bs {
        BatchStartInRange(n - bs, bs, j - 1);
      } else {
        StartAtLeast(j - 1, bs);
      }
    }
  }

  lemma {:induction false} StartAtLeast(j: nat, bs: nat)
    ensures Start(j, bs) >= 0
    ensures Start(j + 1, bs) >= bs
  {
    if j > 0 {
      StartAtLeast(j - 1, bs);
    }
  }

  /** The batch number `i // bs + 1` of the start `i = j * bs` is `j + 1`. */
  lemma BatchNumber(j: nat, bs: nat)
    requires bs > 0
    ensures Start(j, bs) / bs == j
  {
    StartIsProduct(j, bs);
    DivUnique(j * bs, bs, j, 0);
  }

  /** Quotient and remainder are unique. */
  lemma DivUnique(x: int, bs: nat, q: int, r: int)
    requires bs > 0 && 0 <= r < bs && x == q * bs + r
    ensures x / bs == q
  {
    var q', r' := x / bs, x % bs;
    assert (q - q') * bs == r' - r;
    MultipleBounds(q - q', bs);
  }

  lemma MultipleBounds(d: int, bs: nat)
    requires bs > 0
    ensures d >= 1 ==> d * bs >= bs
    ensures d <= -1 ==> d * bs <= -(bs as int)
  {
  }

  /** `pdf_files[i : i + bs]` for the start `i` of batch `j`. */
  function BatchAt<T>(xs: seq<T>, bs: nat, j: nat): (batch: seq<T>)
    requires bs > 0 && j < BatchCount(|xs|, bs)
    ensures 1 <= |batch| <= bs
    ensures j + 1 < BatchCount(|xs|, bs) ==> |batch| == bs
  {
    BatchStartInRange(|xs|, bs, j);
    BatchStartInRange(|xs|, bs, j + 1);
    xs[Start(j, bs) .. Min(Start(j, bs) + bs, |xs|)]
  }

  /** The first `j` batches. */
  function BatchesUpTo<T>(xs: seq<T>, bs: nat, j: nat): (parts: seq<seq<T>>)
    requires bs > 0 && j <= BatchCount(|xs|, bs)
    ensures |parts| == j
    ensures forall b :: 0 <= b < j ==> parts[b] == BatchAt(xs, bs, b)
  {
    if j == 0 then [] else BatchesUpTo(xs, bs, j - 1) + [BatchAt(xs, bs, j - 1)]
  }

  function Concat<T>(parts: seq<seq<T>>): seq<T> {
    if parts == [] then [] else Concat(parts[..|parts| - 1]) + parts[|parts| - 1]
  }

  /** The first `j` batches, concatenated, are the first `min(j * bs, n)` files. */
  lemma {:induction false} BatchesPrefix<T>(xs: seq<T>, bs: nat, j: nat)
    requires bs > 0 && j <= BatchCount(|xs|, bs)
    ensures Concat(BatchesUpTo(xs, bs, j)) == xs[..Min(Start(j, bs), |xs|)]
  {
    if j > 0 {
      BatchesPrefix(xs, bs, j - 1);
      BatchStartInRange(|xs|, bs, j - 1);
      BatchesUpToStep(xs, bs, j);
      PrefixSplit(xs, Start(j - 1, bs), Min(Start(j - 1, bs) + bs, |xs|));
    }
  }

  lemma BatchesUpToStep<T>(xs: seq<T>, bs: nat, j: nat)
    requires bs > 0 && 0 < j <= BatchCount(|xs|, bs)
    ensures Concat(BatchesUpTo(xs, bs, j)) == Concat(BatchesUpTo(xs, bs, j - 1)) + BatchAt(xs, bs, j - 1)
  {
    var parts := BatchesUpTo(xs, bs, j);
    assert parts[..j - 1] == BatchesUpTo(xs, bs, j - 1);
  }

  lemma PrefixSplit<T>(xs: seq<T>, lo: nat, end: nat)
    requires lo <= end <= |xs|
    ensures xs[..end] == xs[..lo] + xs[lo..end]
  {
  }

  /** The batches, concatenated, are the whole file list. */
  lemma BatchesCoverList<T>(xs: seq<T>, bs: nat)
    requires bs > 0
    ensures Concat(BatchesUpTo(xs, bs, BatchCount(|xs|, bs))) == xs
  {
    var k := BatchCount(|xs|, bs);
    BatchesPrefix(xs, bs, k);
    BatchStartInRange(|xs|, bs, k);
    assert xs[..Min(Start(k, bs), |xs|)] == xs;
  }

  /** What the loop reports about batch number `number`: its size, the
      progress count `min(i + batch_size, n)`, and the seconds of the pause
      that follows it (0 for none). */
  datatype BatchLog = BatchLog(number: int, size: nat, processed: nat, pauseSeconds: nat)

  /** The log line of batch `j` (0-based) of `n` files. */
  function LogAt(n: nat, bs: nat, j: nat): (l: BatchLog)
    requires bs > 0 && j < BatchCount(n, bs)
    ensures l.number == j + 1
    ensures l.processed <= n
    ensures l.pauseSeconds == if j + 1 < BatchCount(n, bs) then InterBatchDelay else 0
    ensures l.pauseSeconds > 0 <==> l.processed < n
  {
    BatchStartInRange(n, bs, j);
    BatchStartInRange(n, bs, j + 1);
    var i := Start(j, bs);
    BatchLog(j + 1, Min(i + bs, n) - i, Min(i + bs, n), if i + bs < n then InterBatchDelay else 0)
  }

  /** The log of the first `j` batches. */
  function LogsUpTo(n: nat, bs: nat, j: nat): (logs: seq<BatchLog>)
    requires bs > 0 && j <= BatchCount(n, bs)
    ensures |logs| == j
  {
    if j == 0 then [] else LogsUpTo(n, bs, j - 1) + [LogAt(n, bs, j - 1)]
  }

  /** Entry `b` of the log is batch `b`'s line. */
  lemma {:induction false} LogsUpToAt(n: nat, bs: nat, j: nat, b: nat)
    requires bs > 0 && b < j <= BatchCount(n, bs)
    ensures LogsUpTo(n, bs, j)[b] == LogAt(n, bs, b)
  {
    if b < j - 1 {
      LogsUpToAt(n, bs, j - 1, b);
    }
  }

  /** The loop's own numbers for the batch starting at `i`. */
  lemma LogEntry(n: nat, bs: nat, j: nat, i: nat, end: nat)
    requires bs > 0 && j < BatchCount(n, bs)
    requires i == Start(j, bs) && i < n && end == Min(i + bs, n)
    ensures BatchLog(i / bs + 1, end - i, end, if i + bs < n then InterBatchDelay else 0) == LogAt(n, bs, j)
  {
    BatchNumber(j, bs);
  }

  /** Progress never goes back and reaches `n` with the last batch. */
  lemma ProgressMonotone(n: nat, bs: nat, j: nat)
    requires bs > 0 && j + 1 < BatchCount(n, bs)
    ensures LogAt(n, bs, j).processed <= LogAt(n, bs, j + 1).processed
    ensures LogAt(n, bs, BatchCount(n, bs) - 1).processed == n
  {
  }

  /** Every batch but the last is followed by the two-second pause. */
  lemma PauseOnlyBetweenBatches(n: nat, bs: nat)
    requires bs > 0 && n > 0
    ensures forall j :: 0 <= j < BatchCount(n, bs) ==>
      LogAt(n, bs, j).pauseSeconds == if j != BatchCount(n, bs) - 1 then InterBatchDelay else 0
  {
  }

  /** Twelve files in batches of the default ten: two batches of 10 and 2
      files, with one two-second pause between them. */
  lemma TwelveFilesTwoBatches<T>(xs: seq<T>)
    requires |xs| == 12
    ensures BatchCount(12, DefaultBatchSize) == 2
    ensures |BatchAt(xs, DefaultBatchSize, 0)| == 10 && |BatchAt(xs, DefaultBatchSize, 1)| == 2
    ensures LogAt(12, DefaultBatchSize, 0) == BatchLog(1, 10, 10, 2)
    ensures LogAt(12, DefaultBatchSize, 1) == BatchLog(2, 2, 12, 0)
  {
    assert BatchCount(2, 10) == 1;
    assert Start(1, 10) == 10;
  }

  // ================================================================ the run

  /** How `batch_process_papers` ends: a `None` return for a missing
      directory or an empty file list, the `ValueError` that `range` raises
      for a zero step, or the two totals. */
  datatype RunOutcome = DirectoryMissing | NoPdfFiles | ZeroBatchSize | Totals(successful: nat, failed: nat)

  /** `batch_process_papers(batch_size, ...)` over the documents the glob
      found, in the order it found them. */
  method BatchProcessPapers(
    book: ExcelFile, dirExists: bool, docs: seq<DocInput>, batchSize: int, parse: JsonParser)
    returns (outcome: RunOutcome, log: seq<BatchLog>)
    requires book.Valid()
    modifies book
    ensures book.Valid()
    ensures !dirExists ==> outcome == DirectoryMissing
    ensures dirExists && docs == [] ==> outcome == NoPdfFiles
    ensures dirExists && docs != [] && batchSize == 0 ==> outcome == ZeroBatchSize
    ensures dirExists && docs != [] && batchSize < 0 ==> outcome == Totals(0, 0) && log == []
    ensures !outcome.Totals? || batchSize < 0 ==>
      book.present == old(book.present) && book.rows == old(book.rows)
    ensures dirExists && docs != [] && batchSize > 0 ==>
      && outcome == Totals(CountSucceeded(Gathered(docs, ProcessWith(parse))), CountFailed(Gathered(docs, ProcessWith(parse))))
      && outcome.successful + outcome.failed == |docs|
      && log == LogsUpTo(|docs|, batchSize, BatchCount(|docs|, batchSize))
      && Book(book.present, book.rows)
         == SaveAll(Book(old(book.present), old(book.rows)), docs, Gathered(docs, ProcessWith(parse)))
  {
    log := [];
    if !dirExists {
      return DirectoryMissing, log;
    }
    if docs == [] {
      return NoPdfFiles, log;
    }
    if batchSize == 0 {
      return ZeroBatchSize, log;
    }
    if batchSize < 0 {
      // `range(0, n, step)` with a negative step and `n > 0` is empty.
      return Totals(0, 0), log;
    }
    var totalSuccessful, totalFailed;
    totalSuccessful, totalFailed, log := ProcessInBatches(book, docs, batchSize, ProcessWith(parse));
    outcome := Totals(totalSuccessful, totalFailed);
  }

  /** One pass of the loop body: the slice starting at `i`, its number, its
      processing and saves, the progress count and whether a pause follows;
      the totals, the workbook and the log then account for one more batch. */
  method RunBatch(
    book: ExcelFile, docs: seq<DocInput>, i: nat, bs: nat, process: Processor,
    ghost start: Book, ghost j: nat, ghost totalSuccessful: nat, ghost totalFailed: nat,
    ghost log: seq<BatchLog>)
    returns (successful: nat, failed: nat, entry: BatchLog)
    requires bs > 0 && i < |docs|
    requires book.Valid()
    requires Progress(start, docs, Gathered(docs, process), bs, i, j, totalSuccessful, totalFailed,
                      Book(book.present, book.rows), log)
    modifies book
    ensures book.Valid()
    ensures Progress(start, docs, Gathered(docs, process), bs, i + bs, j + 1,
                     totalSuccessful + successful, totalFailed + failed,
                     Book(book.present, book.rows), log + [entry])
  {
    ghost var mid := Book(book.present, book.rows);
    var n := |docs|;
    var batch := docs[i..Min(i + bs, n)];
    var batchNum := i / bs + 1;
    var results := GatherBatch(batch, process);
    GatheredSlice(docs, process, i, Min(i + bs, n));
    successful, failed := ProcessPdfBatch(book, batch, results);
    var processed := Min(i + bs, n);
    var pause := if i + bs < n then InterBatchDelay else 0;
    entry := BatchLog(batchNum, |batch|, processed, pause);
    ProgressStep(start, docs, Gathered(docs, process), bs, i, j, totalSuccessful, totalFailed, mid, log,
                 successful, failed, Book(book.present, book.rows), entry);
  }

  /** The running totals and the workbook account for the results `ts` of
      the first `done` documents. */
  ghost predicate Accounted(
    start: Book, docs: seq<DocInput>, ts: seq<TaskResult>, done: nat,
    totalSuccessful: nat, totalFailed: nat, now: Book)
    requires |ts| == |docs| && done <= |docs|
  {
    && totalSuccessful == CountSucceeded(ts[..done])
    && totalFailed == CountFailed(ts[..done])
    && now == SaveAll(start, docs[..done], ts[..done])
  }

  /** The tallies and the saves of the slice `i..end` alone. */
  ghost predicate SliceDone(
    docs: seq<DocInput>, ts: seq<TaskResult>, i: nat, end: nat,
    successful: nat, failed: nat, before: Book, after: Book)
    requires |ts| == |docs| && i <= end <= |docs|
  {
    && successful == CountSucceeded(ts[i..end])
    && failed == CountFailed(ts[i..end])
    && after == SaveAll(before, docs[i..end], ts[i..end])
  }

  lemma AccountedStep(
    start: Book, docs: seq<DocInput>, ts: seq<TaskResult>, i: nat, end: nat,
    totalSuccessful: nat, totalFailed: nat, successful: nat, failed: nat, mid: Book, after: Book)
    requires |ts| == |docs| && i <= end <= |docs|
    requires Accounted(start, docs, ts, i, totalSuccessful, totalFailed, mid)
    requires SliceDone(docs, ts, i, end, successful, failed, mid, after)
    ensures Accounted(start, docs, ts, end, totalSuccessful + successful, totalFailed + failed, after)
  {
    NextSlice(start, docs, ts, i, end);
  }

  /** The loop's invariant: `i` is the start of batch `j`, the totals and the
      workbook account for every file before `i`, and the log holds the lines
      of the first `j` batches. */
  ghost predicate Progress(
    start: Book, docs: seq<DocInput>, ts: seq<TaskResult>, bs: nat, i: nat, j: nat,
    totalSuccessful: nat, totalFailed: nat, now: Book, log: seq<BatchLog>)
  {
    && |ts| == |docs| && bs > 0
    && j <= BatchCount(|docs|, bs)
    && i == Start(j, bs)
    && (i < |docs| <==> j < BatchCount(|docs|, bs))
    && Accounted(start, docs, ts, Min(i, |docs|), totalSuccessful, totalFailed, now)
    && log == LogsUpTo(|docs|, bs, j)
  }

  /** One pass of the loop keeps `Progress`. */
  lemma ProgressStep(
    start: Book, docs: seq<DocInput>, ts: seq<TaskResult>, bs: nat, i: nat, j: nat,
    totalSuccessful: nat, totalFailed: nat, mid: Book, log: seq<BatchLog>,
    successful: nat, failed: nat, after: Book, entry: BatchLog)
    requires |ts| == |docs| && bs > 0 && i < |docs|
    requires Progress(start, docs, ts, bs, i, j, totalSuccessful, totalFailed, mid, log)
    requires SliceDone(docs, ts, i, Min(i + bs, |docs|), successful, failed, mid, after)
    requires entry == BatchLog(i / bs + 1, Min(i + bs, |docs|) - i, Min(i + bs, |docs|),
                               if i + bs < |docs| then InterBatchDelay else 0)
    ensures Progress(start, docs, ts, bs, i + bs, j + 1,
                     totalSuccessful + successful, totalFailed + failed, after, log + [entry])
  {
    var n, end := |docs|, Min(i + bs, |docs|);
    assert Min(i, n) == i;
    AccountedStep(start, docs, ts, i, end, totalSuccessful, totalFailed, successful, failed, mid, after);
    LogEntry(n, bs, j, i, end);
    assert LogsUpTo(n, bs, j + 1) == LogsUpTo(n, bs, j) + [LogAt(n, bs, j)];
    StartShift(j, bs);
    BatchStartInRange(n, bs, j + 1);
  }

  /** When the loop stops, every file and every batch has been accounted for. */
  lemma ProgressDone(
    start: Book, docs: seq<DocInput>, ts: seq<TaskResult>, bs: nat, i: nat, j: nat,
    totalSuccessful: nat, totalFailed: nat, now: Book, log: seq<BatchLog>)
    requires |ts| == |docs| && bs > 0 && i >= |docs|
    requires Progress(start, docs, ts, bs, i, j, totalSuccessful, totalFailed, now, log)
    ensures totalSuccessful == CountSucceeded(ts)
    ensures totalFailed == CountFailed(ts)
    ensures totalSuccessful + totalFailed == |docs|
    ensures log == LogsUpTo(|docs|, bs, BatchCount(|docs|, bs))
    ensures now == SaveAll(start, docs, ts)
  {
    assert Min(i, |docs|) == |docs|;
    assert docs[..|docs|] == docs;
    assert ts[..|ts|] == ts;
    CountsCoverBatch(ts);
  }

  /** The `for i in range(0, len(pdf_files), batch_size)` loop of
      `batch_process_papers`, with its running totals. */
  method ProcessInBatches(book: ExcelFile, docs: seq<DocInput>, bs: nat, process: Processor)
    returns (totalSuccessful: nat, totalFailed: nat, log: seq<BatchLog>)
    requires bs > 0
    requires book.Valid()
    modifies book
    ensures book.Valid()
    ensures totalSuccessful == CountSucceeded(Gathered(docs, process))
    ensures totalFailed == CountFailed(Gathered(docs, process))
    ensures totalSuccessful + totalFailed == |docs|
    ensures log == LogsUpTo(|docs|, bs, BatchCount(|docs|, bs))
    ensures Book(book.present, book.rows)
      == SaveAll(Book(old(book.present), old(book.rows)), docs, Gathered(docs, process))
  {
    log := [];
    ghost var start := Book(book.present, book.rows);
    ghost var ts := Gathered(docs, process);
    totalSuccessful, totalFailed := 0, 0;
    var i := 0;
    ghost var j := 0;
    BatchStartInRange(|docs|, bs, 0);
    assert docs[..0] == [] && ts[..0] == [];
    while i < |docs|
      invariant book.Valid()
      invariant Progress(start, docs, ts, bs, i, j, totalSuccessful, totalFailed,
                         Book(book.present, book.rows), log)
      decreases |docs| - i
    {
      var successful, failed, entry := RunBatch(book, docs, i, bs, process, start, j, totalSuccessful, totalFailed, log);
      totalSuccessful := totalSuccessful + successful;
      totalFailed := totalFailed + failed;
      log := log + [entry];
      i := i + bs;
      j := j + 1;
    }
    ProgressDone(start, docs, ts, bs, i, j, totalSuccessful, totalFailed,
                 Book(book.present, book.rows), log);
  }
}
