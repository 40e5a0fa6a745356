/** The per-document half of the pipeline (pdf_processor.py): the five-way
    text-extraction cascade behind a quality gate, the bounded retry loop
    around the metadata service, the record-or-placeholder rule, and the
    append-one-row save into the workbook.

    The PDF libraries, the OCR engine, the service and `json.loads` are not
    modelled; what they answer for one document is an input. */
module PdfProcessor {
  import opened Wrappers
  import opened Text

  // ================================================================ constants

  /** A strategy's text is kept only when `len(text.strip()) > 100`. */
  const QualityThreshold: nat := 100
  /** OCR looks at no more than the first five pages. */
  const OcrPageLimit: nat := 5
  /** `process_single_pdf` calls the service with the default `max_retries=3`. */
  const MaxRetries: int := 3
  const AllMethodsFailed: string := "All extraction methods failed"
  const SaveErrorPrefix: string := "Error saving to Excel: "
  /** What `json.loads(None)` raises; reached only when no attempt is made. */
  const NoneTypeMessage: string := "the JSON object must be str, bytes or bytearray, not NoneType"

  // ================================================================ extraction

  /** The five strategies in the order they are tried. */
  datatype Strategy = PyMuPdf | PdfPlumber | PdfMiner | PyPdf2 | Ocr

  const StrategyOrder: seq<Strategy> := [PyMuPdf, PdfPlumber, PdfMiner, PyPdf2, Ocr]
  const StrategyCount: nat := 5

  /** What a page-by-page library yields for one document: the text of every
      page (a page whose text is `None` is given as `""`), or the message of
      the exception it raised. */
  datatype PagedOutcome = PagesRaised(error: string) | Pages(texts: seq<string>)

  /** What a whole-document library yields: its text, or an exception. */
  datatype WholeOutcome = WholeRaised(error: string) | Whole(text: string)

  /** Everything the libraries answer for one document. For OCR, `texts`
      holds what the recogniser reads off each page image, one entry per page
      of the document. */
  datatype Sources = Sources(
    pymupdf: PagedOutcome,
    pdfplumber: PagedOutcome,
    pdfminer: WholeOutcome,
    pypdf2: PagedOutcome,
    ocr: PagedOutcome)

  /** The quality gate. */
  predicate Acceptable(text: string) {
    |Strip(text)| > QualityThreshold
  }

  /** `not text.strip()`: the page is left out. */
  predicate IsBlank(text: string) {
    Strip(text) == ""
  }

  /** The pages that `blank` does not reject, in page order. */
  function Kept(pages: seq<string>, blank: string -> bool): (kept: seq<string>)
    ensures |kept| <= |pages|
    ensures forall p :: p in kept ==> p in pages && !blank(p)
  {
    if pages == [] then []
    else
      var init := Kept(pages[..|pages| - 1], blank);
      var last := pages[|pages| - 1];
      if blank(last) then init else init + [last]
  }

  /** The pages a paged strategy keeps: the non-blank ones, in page order. */
  function NonBlankPages(pages: seq<string>): (kept: seq<string>)
    ensures |kept| <= |pages|
    ensures forall p :: p in kept ==> p in pages && Strip(p) != ""
  {
    Kept(pages, IsBlank)
  }

  /** Filtering a concatenation filters each part, in order. */
  lemma {:induction false} KeptAppend(a: seq<string>, b: seq<string>, blank: string -> bool)
    ensures Kept(a + b, blank) == Kept(a, blank) + Kept(b, blank)
    decreases |b|
  {
    if b == [] {
      assert a + b == a;
    } else {
      var init, last := b[..|b| - 1], b[|b| - 1];
      KeptAppend(a, init, blank);
      assert (a + b)[..|a + b| - 1] == a + init;
      assert (a + b)[|a + b| - 1] == last;
    }
  }

  /** Keeping the non-blank pages of a concatenation keeps those of each part,
      in order: with `NonBlankPagesSingle` this pins the filter down completely. */
  lemma NonBlankPagesAppend(a: seq<string>, b: seq<string>)
    ensures NonBlankPages(a + b) == NonBlankPages(a) + NonBlankPages(b)
  {
    KeptAppend(a, b, IsBlank);
  }

  /** A single page is kept exactly when it is not blank. */
  lemma NonBlankPagesSingle(p: string)
    ensures NonBlankPages([p]) == if Strip(p) == "" then [] else [p]
  {
    assert [p][..0] == [];
  }

  /** `"\n".join(text_parts)` for a paged strategy. */
  function PagedText(pages: seq<string>): string {
    Join(NonBlankPages(pages), "\n")
  }

  /** The banner OCR puts before the text of page number `k` (1-based). */
  function OcrBanner(k: nat): string {
    "=== PAGE " + Digits(k) + " (OCR) ===\n"
  }

  /** The OCR parts collected from the first `n` pages. */
  function OcrParts(pages: seq<string>, n: nat): (parts: seq<string>)
    requires n <= |pages|
    ensures |parts| <= n
    ensures forall part :: part in parts ==>
      exists k :: 1 <= k <= n && part == OcrBanner(k) + pages[k - 1] && !IsBlank(pages[k - 1])
  {
    if n == 0 then []
    else
      var init := OcrParts(pages, n - 1);
      if IsBlank(pages[n - 1]) then init else init + [OcrBanner(n) + pages[n - 1]]
  }

  /** `min(5, len(doc))`. */
  function OcrPageCount(pages: seq<string>): (n: nat)
    ensures n <= |pages| && n <= OcrPageLimit
    ensures n == OcrPageLimit || n == |pages|
  {
    if |pages| < OcrPageLimit then |pages| else OcrPageLimit
  }

  /** Visiting page `n` adds its banner and text unless it is blank. */
  lemma OcrPartsStep(pages: seq<string>, n: nat)
    requires n < |pages|
    ensures OcrParts(pages, n + 1) == OcrParts(pages, n) + (if IsBlank(pages[n]) then [] else [OcrBanner(n + 1) + pages[n]])
  {
  }

  function OcrText(pages: seq<string>): string {
    Join(OcrParts(pages, OcrPageCount(pages)), "\n")
  }

  /** OCR parts depend only on the pages they visit. */
  lemma {:induction false} OcrPartsPrefix(p: seq<string>, q: seq<string>, n: nat)
    requires n <= |p| && n <= |q| && p[..n] == q[..n]
    ensures OcrParts(p, n) == OcrParts(q, n)
  {
    if n > 0 {
      assert p[..n - 1] == q[..n - 1] by {
        assert p[..n - 1] == p[..n][..n - 1];
        assert q[..n - 1] == q[..n][..n - 1];
      }
      assert p[n - 1] == p[..n][n - 1];
      assert q[n - 1] == q[..n][n - 1];
      OcrPartsPrefix(p, q, n - 1);
    }
  }

  /** Pages after the fifth never reach the OCR text. */
  lemma OcrOnlyFirstFivePages(p: seq<string>, q: seq<string>)
    requires |p| >= OcrPageLimit && |q| >= OcrPageLimit
    requires p[..OcrPageLimit] == q[..OcrPageLimit]
    ensures OcrText(p) == OcrText(q)
  {
    OcrPartsPrefix(p, q, OcrPageLimit);
  }

  /** The text a paged strategy hands to the gate, if it did not raise. */
  function PagedCandidate(o: PagedOutcome): Option<string> {
    match o
    case PagesRaised(_) => None
    case Pages(texts) => Some(PagedText(texts))
  }

  /** The text strategy number `k` (0-based, in `StrategyOrder`) hands to
      the gate, or `None` when it raised. */
  function Candidate(src: Sources, k: nat): Option<string>
    requires k < StrategyCount
  {
    if k == 0 then PagedCandidate(src.pymupdf)
    else if k == 1 then PagedCandidate(src.pdfplumber)
    else if k == 2 then
      (match src.pdfminer
       case WholeRaised(_) => None
       case Whole(text) => Some(text))
    else if k == 3 then PagedCandidate(src.pypdf2)
    else
      match src.ocr
      case PagesRaised(_) => None
      case Pages(texts) => Some(OcrText(texts))
  }

  /** Strategy `k` produced text and the text passed the gate. */
  predicate Passes(src: Sources, k: nat)
    requires k < StrategyCount
  {
    Candidate(src, k).Some? && Acceptable(Candidate(src, k).value)
  }

  /** The first strategy at or after `from` whose text passes the gate. */
  function Winner(src: Sources, from: nat): (w: Option<nat>)
    requires from <= StrategyCount
    ensures w.Some? ==> from <= w.value < StrategyCount && Passes(src, w.value)
    ensures w.Some? ==> forall j :: from <= j < w.value ==> !Passes(src, j)
    ensures w.None? ==> forall j :: from <= j < StrategyCount ==> !Passes(src, j)
    decreases StrategyCount - from
  {
    if from == StrategyCount then None
    else if Passes(src, from) then Some(from)
    else Winner(src, from + 1)
  }

  /** What `extract_text_from_pdf_robust` returns or raises. */
  function Cascade(src: Sources): (r: Result<string>)
    ensures r.Ok? ==> Acceptable(r.value) && Strip(r.value) != ""
    ensures r.Err? ==> r.message == AllMethodsFailed
    ensures r.Err? <==> forall k :: 0 <= k < StrategyCount ==> !Passes(src, k)
  {
    match Winner(src, 0)
    case Some(k) => Ok(Candidate(src, k).value)
    case None => Err(AllMethodsFailed)
  }

  /** How many strategies run: up to and including the winner, else all five. */
  function AttemptCount(src: Sources): (n: nat)
    ensures 1 <= n <= StrategyCount
  {
    match Winner(src, 0)
    case Some(k) => k + 1
    case None => StrategyCount
  }

  /** The winner is the first passing strategy, whatever the earlier ones did:
      raising and falling short of the gate are the same to the cascade. */
  lemma CascadeReturnsFirstPassing(src: Sources, k: nat)
    requires k < StrategyCount && Passes(src, k)
    requires forall j :: 0 <= j < k ==> !Passes(src, j)
    ensures Winner(src, 0) == Some(k)
    ensures Cascade(src) == Ok(Candidate(src, k).value)
    ensures AttemptCount(src) == k + 1
  {
    WinnerFrom(src, 0, k);
  }

  lemma {:induction false} WinnerFrom(src: Sources, from: nat, k: nat)
    requires from <= k < StrategyCount && Passes(src, k)
    requires forall j :: from <= j < k ==> !Passes(src, j)
    ensures Winner(src, from) == Some(k)
    decreases k - from
  {
    if from < k {
      assert !Passes(src, from);
      WinnerFrom(src, from + 1, k);
      assert Winner(src, from) == Winner(src, from + 1);
    }
  }

  /** Strategies 1 and 2 fall short and strategy 3 passes: exactly the first
      three run and the third one's text is returned. */
  lemma ThirdStrategyWins(src: Sources)
    requires !Passes(src, 0) && !Passes(src, 1) && Passes(src, 2)
    ensures Cascade(src) == Ok(Candidate(src, 2).value)
    ensures StrategyOrder[..AttemptCount(src)] == [PyMuPdf, PdfPlumber, PdfMiner]
  {
    CascadeReturnsFirstPassing(src, 2);
  }

  /** A page-by-page strategy: keep each non-blank page, then join. */
  method JoinNonBlankPages(pages: seq<string>) returns (fullText: string)
    ensures fullText == PagedText(pages)
  {
    var textParts: seq<string> := [];
    var i := 0;
    while i < |pages|
      invariant 0 <= i <= |pages|
      invariant textParts == NonBlankPages(pages[..i])
    {
      assert pages[..i + 1][..i] == pages[..i];
      if Strip(pages[i]) != "" {
        textParts := textParts + [pages[i]];
      }
      i := i + 1;
    }
    assert pages[..i] == pages;
    fullText := Join(textParts, "\n");
  }

  /** The OCR strategy: the first `min(5, page_count)` page images, each kept
      non-blank one behind its page banner. */
  method OcrPages(pages: seq<string>) returns (fullText: string)
    ensures fullText == OcrText(pages)
  {
    var textParts: seq<string> := [];
    var pageCount := if |pages| < OcrPageLimit then |pages| else OcrPageLimit;
    var pageNum := 0;
    while pageNum < pageCount
      invariant 0 <= pageNum <= pageCount
      invariant pageCount == OcrPageCount(pages)
      invariant textParts == OcrParts(pages, pageNum)
    {
      OcrPartsStep(pages, pageNum);
      var ocrText := pages[pageNum];
      if Strip(ocrText) != "" {
        var part := "=== PAGE " + Digits(pageNum + 1) + " (OCR) ===\n" + ocrText;
        assert part == OcrBanner(pageNum + 1) + ocrText;
        textParts := textParts + [part];
      }
      pageNum := pageNum + 1;
    }
    fullText := Join(textParts, "\n");
  }

  method RunPaged(o: PagedOutcome) returns (candidate: Option<string>)
    ensures candidate == PagedCandidate(o)
  {
    match o
    case PagesRaised(_) =>
      candidate := None;
    case Pages(texts) =>
      var fullText := JoinNonBlankPages(texts);
      candidate := Some(fullText);
  }

  /** Runs strategy number `k` of the cascade. */
  method RunStrategy(src: Sources, k: nat) returns (candidate: Option<string>)
    requires k < StrategyCount
    ensures candidate == Candidate(src, k)
  {
    if k == 0 {
      candidate := RunPaged(src.pymupdf);
    } else if k == 1 {
      candidate := RunPaged(src.pdfplumber);
    } else if k == 2 {
      candidate := match src.pdfminer case WholeRaised(_) => None case Whole(text) => Some(text);
    } else if k == 3 {
      candidate := RunPaged(src.pypdf2);
    } else {
      match src.ocr {
        case PagesRaised(_) =>
          candidate := None;
        case Pages(texts) =>
          var fullText := OcrPages(texts);
          candidate := Some(fullText);
      }
    }
  }

  /** One `try` block of the cascade: the strategy's text when it ran and
      passed the gate, `None` when it raised or fell short. */
  method TryStrategy(src: Sources, k: nat) returns (accepted: Option<string>)
    requires k < StrategyCount
    ensures accepted.Some? <==> Passes(src, k)
    ensures accepted.Some? ==> accepted == Candidate(src, k)
  {
    var candidate := RunStrategy(src, k);
    if candidate.Some? && Acceptable(candidate.value) {
      accepted := candidate;
    } else {
      accepted := None;
    }
  }

  /** `extract_text_from_pdf_robust`: the strategies in order, the first text
      that passes the gate is returned, nothing after it runs. `attempted`
      lists the strategies that ran. */
  method ExtractTextRobust(src: Sources) returns (r: Result<string>, attempted: seq<Strategy>)
    ensures r == Cascade(src)
    ensures attempted == StrategyOrder[..AttemptCount(src)]
  {
    var accepted: Option<string>;
    // Method 1: PyMuPDF
    attempted := StrategyOrder[..1];
    accepted := TryStrategy(src, 0);
    if accepted.Some? {
      CascadeReturnsFirstPassing(src, 0);
      return Ok(accepted.value), attempted;
    }
    // Method 2: pdfplumber
    attempted := StrategyOrder[..2];
    accepted := TryStrategy(src, 1);
    if accepted.Some? {
      CascadeReturnsFirstPassing(src, 1);
      return Ok(accepted.value), attempted;
    }
    // Method 3: PDFMiner
    attempted := StrategyOrder[..3];
    accepted := TryStrategy(src, 2);
    if accepted.Some? {
      CascadeReturnsFirstPassing(src, 2);
      return Ok(accepted.value), attempted;
    }
    // Method 4: PyPDF2
    attempted := StrategyOrder[..4];
    accepted := TryStrategy(src, 3);
    if accepted.Some? {
      CascadeReturnsFirstPassing(src, 3);
      return Ok(accepted.value), attempted;
    }
    // Method 5: OCR
    attempted := StrategyOrder[..5];
    accepted := TryStrategy(src, 4);
    if accepted.Some? {
      CascadeReturnsFirstPassing(src, 4);
      return Ok(accepted.value), attempted;
    }
    r := Err(AllMethodsFailed);
  }

  // ================================================================ service

  /** One call to the metadata service: the reply body, or the exception. */
  datatype ServiceOutcome = Completed(content: string) | CallFailed(error: string)

  /** What the service answers on attempt number `a` (0-based). */
  type Service = nat -> ServiceOutcome

  /** What `extract_paper_info` ends with: it returns the reply body, raises,
      or (with `max_retries <= 0`) falls off the loop and returns `None`. */
  datatype Reply = Content(content: string) | Raised(message: string) | NoReply

  /** The reply together with the number of calls made and the sleeps taken. */
  datatype RetryRun = RetryRun(reply: Reply, calls: nat, delays: seq<nat>)

  function Pow2(a: nat): (p: nat)
    ensures p >= 1
  {
    if a == 0 then 1 else 2 * Pow2(a - 1)
  }

  /** The backoff sleeps after the first `k` failed attempts: `2**0 .. 2**(k-1)`. */
  function Backoffs(k: nat): (d: seq<nat>)
    ensures |d| == k
    ensures forall a :: 0 <= a < k ==> d[a] == Pow2(a)
  {
    if k == 0 then [] else Backoffs(k - 1) + [Pow2(k - 1)]
  }

  /** The first attempt below `n` on which the service completes. */
  function FirstCompleted(service: Service, n: nat): (a: Option<nat>)
    ensures a.Some? ==> a.value < n && service(a.value).Completed?
    ensures a.Some? ==> forall b :: 0 <= b < a.value ==> service(b).CallFailed?
    ensures a.None? ==> forall b :: 0 <= b < n ==> service(b).CallFailed?
  {
    if n == 0 then None
    else
      match FirstCompleted(service, n - 1)
      case Some(a) => Some(a)
      case None => if service(n - 1).Completed? then Some(n - 1) else None
  }

  function RetryMessage(maxRetries: int, filename: string, error: string): string {
    "All " + IntToString(maxRetries) + " attempts failed for " + filename + ": " + error
  }

  /** The run of `extract_paper_info(text, filename, max_retries)`. */
  function Retry(filename: string, maxRetries: int, service: Service): RetryRun {
    if maxRetries <= 0 then RetryRun(NoReply, 0, [])
    else
      match FirstCompleted(service, maxRetries)
      case Some(a) => RetryRun(Content(service(a).content), a + 1, Backoffs(a))
      case None =>
        RetryRun(Raised(RetryMessage(maxRetries, filename, service(maxRetries - 1).error)),
                 maxRetries, Backoffs(maxRetries - 1))
  }

  /** `extract_paper_info`: at most `max_retries` calls, the first completed
      reply is returned, a failure before the last attempt sleeps `2**attempt`
      seconds and the last failure raises without sleeping. */
  method ExtractPaperInfo(filename: string, maxRetries: int, service: Service)
    returns (reply: Reply, calls: nat, delays: seq<nat>)
    ensures RetryRun(reply, calls, delays) == Retry(filename, maxRetries, service)
    ensures maxRetries <= 0 <==> reply.NoReply?
    ensures maxRetries > 0 ==> 1 <= calls <= maxRetries
    ensures maxRetries <= 0 ==> calls == 0
    ensures reply.Content? ==> service(calls - 1) == Completed(reply.content)
    ensures forall a :: 0 <= a < calls - 1 ==> service(a).CallFailed?
    ensures reply.Raised? ==> calls == maxRetries && service(calls - 1).CallFailed?
    ensures |delays| == (if calls == 0 then 0 else calls - 1)
    ensures forall a :: 0 <= a < |delays| ==> delays[a] == Pow2(a)
  {
    calls := 0;
    delays := [];
    var attempt := 0;
    while attempt < maxRetries
      invariant 0 <= attempt && calls == attempt
      invariant maxRetries > 0 ==> attempt < maxRetries
      invariant maxRetries <= 0 ==> attempt == 0
      invariant forall b :: 0 <= b < attempt ==> service(b).CallFailed?
      invariant delays == Backoffs(attempt)
      invariant FirstCompleted(service, attempt).None?
    {
      calls := calls + 1;
      match service(attempt) {
        case Completed(content) =>
          assert FirstCompleted(service, attempt + 1) == Some(attempt);
          FirstCompletedStable(service, attempt, maxRetries);
          return Content(content), calls, delays;
        case CallFailed(e) =>
          if attempt == maxRetries - 1 {
            assert FirstCompleted(service, attempt + 1).None?;
            return Raised(RetryMessage(maxRetries, filename, e)), calls, delays;
          }
          delays := delays + [Pow2(attempt)];
      }
      attempt := attempt + 1;
    }
    reply := NoReply;
  }

  /** Once an attempt completes, allowing more attempts does not change which. */
  lemma {:induction false} FirstCompletedStable(service: Service, a: nat, n: nat)
    requires a < n
    requires FirstCompleted(service, a + 1) == Some(a)
    ensures FirstCompleted(service, n) == Some(a)
    decreases n - a
  {
    if n > a + 1 {
      FirstCompletedStable(service, a, n - 1);
    }
  }

  /** Three failing attempts: three calls, sleeps of 1 then 2 seconds, and the
      message of the last failure in the raised error. */
  lemma ThreeFailures(filename: string, service: Service)
    requires forall a :: 0 <= a < 3 ==> service(a).CallFailed?
    ensures Retry(filename, 3, service) ==
      RetryRun(Raised(RetryMessage(3, filename, service(2).error)), 3, [1, 2])
  {
    assert FirstCompleted(service, 3).None?;
    assert Backoffs(2) == [1, 2] by {
      assert Backoffs(1) == [1];
    }
  }

  /** With the default three retries the loop always ends with a reply or an
      error, never with `None`, and the sleeps total at most 1 + 2 seconds. */
  lemma DefaultRetriesNeverReturnNone(filename: string, service: Service)
    ensures !Retry(filename, MaxRetries, service).reply.NoReply?
    ensures Retry(filename, MaxRetries, service).calls <= 3
    ensures |Retry(filename, MaxRetries, service).delays| <= 2
  {
  }

  // ================================================================ records

  /** The six fields the service's schema requires. */
  datatype Payload = Payload(
    title: string, abstractText: string, methodText: string, objectives: string,
    categories: seq<string>, summary: string)

  /** `json.loads` of a reply body: a payload, or the decoding error. */
  datatype ParseOutcome = Parsed(payload: Payload) | ParseFailed(message: string)

  type JsonParser = string -> ParseOutcome

  /** One row of the workbook; `processedAt` is absent until the record is saved. */
  datatype Record = Record(
    filename: string, title: string, abstractText: string, methodText: string,
    objectives: string, categories: seq<string>, summary: string,
    processedAt: Option<string>)

  /** The "clean empty record" of a failed document. */
  function Placeholder(filename: string): Record {
    Record(filename, "", "", "", "", [], "", None)
  }

  /** The parsed payload with `filename` set. */
  function FromPayload(filename: string, p: Payload): Record {
    Record(filename, p.title, p.abstractText, p.methodText, p.objectives, p.categories, p.summary, None)
  }

  /** Everything the outside world answers for one document: its name, the
      libraries' outcomes, the service, the clock at save time, and whether
      the save hits an I/O error. */
  datatype DocInput = DocInput(
    name: string, sources: Sources, service: Service, now: string, saveError: Option<string>)

  /** `process_single_pdf`'s `(record, error)` pair. */
  datatype Processed = Processed(record: Record, error: Option<string>)

  function ReplyError(reply: Reply): string
    requires !reply.Content?
  {
    match reply
    case Raised(message) => message
    case NoReply => NoneTypeMessage
  }

  /** What `process_single_pdf` returns for one document. */
  function ProcessSpec(doc: DocInput, parse: JsonParser): (p: Processed)
    ensures p.record.filename == doc.name
    ensures p.error.Some? ==> p.record == Placeholder(doc.name)
    ensures p.error.None? <==>
      && Cascade(doc.sources).Ok?
      && Retry(doc.name, MaxRetries, doc.service).reply.Content?
      && parse(Retry(doc.name, MaxRetries, doc.service).reply.content).Parsed?
    ensures p.error.None? ==>
      p.record == FromPayload(doc.name, parse(Retry(doc.name, MaxRetries, doc.service).reply.content).payload)
    ensures Cascade(doc.sources).Err? ==> p.error == Some(AllMethodsFailed)
  {
    match Cascade(doc.sources)
    case Err(message) => Processed(Placeholder(doc.name), Some(message))
    case Ok(_) =>
      var reply := Retry(doc.name, MaxRetries, doc.service).reply;
      if reply.Content? then
        match parse(reply.content)
        case Parsed(payload) => Processed(FromPayload(doc.name, payload), None)
        case ParseFailed(message) => Processed(Placeholder(doc.name), Some(message))
      else Processed(Placeholder(doc.name), Some(ReplyError(reply)))
  }

  /** `process_single_pdf`: extraction, service, parse; any failure gives the
      placeholder record and the error text. */
  method ProcessSinglePdf(doc: DocInput, parse: JsonParser) returns (record: Record, error: Option<string>)
    ensures Processed(record, error) == ProcessSpec(doc, parse)
  {
    var extracted, _ := ExtractTextRobust(doc.sources);
    if extracted.Err? {
      record, error := Placeholder(doc.name), Some(extracted.message);
      return;
    }
    var reply, _, _ := ExtractPaperInfo(doc.name, MaxRetries, doc.service);
    if !reply.Content? {
      record, error := Placeholder(doc.name), Some(ReplyError(reply));
      return;
    }
    match parse(reply.content)
    case Parsed(payload) =>
      record := FromPayload(doc.name, payload);
      error := None;
    case ParseFailed(message) =>
      record, error := Placeholder(doc.name), Some(message);
  }

  /** The record as `save_to_excel` leaves it: `processed_at` set. */
  function Stamp(record: Record, now: string): Record {
    record.(processedAt := Some(now))
  }

  // ================================================================ workbook

  /** The Excel file the records are appended to. */
  class ExcelFile {
    var present: bool
    var rows: seq<Record>

    /** A file that does not exist holds no rows. */
    ghost predicate Valid()
      reads this
    {
      present || rows == []
    }

    /** `existing` is `None` when the file is absent. */
    constructor (existing: Option<seq<Record>>)
      ensures Valid()
      ensures present == existing.Some?
      ensures rows == if existing.Some? then existing.value else []
    {
      present := existing.Some?;
      rows := if existing.Some? then existing.value else [];
    }

    /** `save_to_excel`: stamp the record, then the old rows plus this one
        (just this one when the file is absent). An I/O error leaves the
        file as it was and is re-raised with a prefix. */
    method SaveToExcel(record: Record, now: string, ioError: Option<string>)
      returns (stamped: Record, error: Option<string>)
      requires Valid()
      modifies this
      ensures Valid()
      ensures stamped == Stamp(record, now)
      ensures ioError.None? ==> error.None? && present && rows == old(rows) + [stamped]
      ensures ioError.Some? ==> error == Some(SaveErrorPrefix + ioError.value)
      ensures ioError.Some? ==> present == old(present) && rows == old(rows)
    {
      stamped := record.(processedAt := Some(now));
      if ioError.Some? {
        error := Some(SaveErrorPrefix + ioError.value);
        return;
      }
      if present {
        rows := rows + [stamped];
      } else {
        rows := [stamped];
      }
      present := true;
      error := None;
    }
  }
}
