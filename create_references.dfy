// The references writer: the filename-to-data map read back from the
// summary workbook, the per-field choices with their placeholders and
// truncation, and the two text files it writes, one block or one numbered
// line per PDF in file-list order.

module CreateReferences {
  import opened Wrappers
  import opened Text
  import opened Sheet

  const TitlePlaceholder := "Title not extracted"
  const AbstractPlaceholder := "Abstract not available"
  const MethodPlaceholder := "Method not available"
  const CategoriesPlaceholder := "Categories not available"

  /** Length past which a shown abstract is cut, and a shown method. */
  const AbstractLimit := 200
  const MethodLimit := 150

  // ---------------------------------------------------------------- the map

  /** One value of `processed_data`: the row's fields with missing cells
      read as `''`. */
  datatype Entry = Entry(
    title: string,
    abstractText: string,
    methodText: string,
    objectives: string,
    summary: string,
    categories: string,
    processedAt: string)

  /** A text field: `row[col] if pd.notna(row[col]) else ''`. */
  function FieldText(c: Cell): (s: string)
    ensures c.NaN? ==> s == ""
    ensures c.Str? ==> s == c.text
  {
    match c
    case NaN => ""
    case Str(t) => t
  }

  /** The categories field: a missing cell reads as `''`, any other value is
      kept (and later shown by its `str()`). */
  function CategoriesText(c: CategoryCell): (s: string)
    ensures c.CatNaN? ==> s == ""
    ensures c.CatStr? ==> s == c.text
    ensures c.CatOther? ==> s == c.repr
  {
    match c
    case CatNaN => ""
    case CatStr(t) => t
    case CatOther(r) => r
  }

  function EntryOf(row: SheetRow): Entry
  {
    Entry(FieldText(row.title), FieldText(row.abstractText), FieldText(row.methodText),
          FieldText(row.objectives), FieldText(row.summary), CategoriesText(row.categories),
          FieldText(row.processedAt))
  }

  /** `processed_data` after the rows: rows with a missing filename are
      skipped, and each other row overwrites the key of its filename. */
  function ProcessedData(rows: seq<SheetRow>): map<string, Entry>
  {
    if rows == [] then map[]
    else
      var row := rows[|rows| - 1];
      var m := ProcessedData(rows[..|rows| - 1]);
      match row.filename
      case NaN => m
      case Str(f) => m[f := EntryOf(row)]
  }

  /** The map-building loop over `df.iterrows()`. */
  method BuildProcessedData(rows: seq<SheetRow>) returns (data: map<string, Entry>)
    ensures data == ProcessedData(rows)
  {
    data := map[];
    var i := 0;
    while i < |rows|
      invariant 0 <= i <= |rows|
      invariant data == ProcessedData(rows[..i])
    {
      assert rows[..i + 1][..i] == rows[..i];
      var row := rows[i];
      if row.filename.Str? {
        data := data[row.filename.text := EntryOf(row)];
      }
      i := i + 1;
    }
    assert rows[..i] == rows;
  }

  /** A filename is a key exactly when some row carries it. */
  lemma {:induction false} ProcessedDataKeys(rows: seq<SheetRow>, f: string)
    ensures f in ProcessedData(rows) <==> exists i :: 0 <= i < |rows| && rows[i].filename == Str(f)
  {
    if rows != [] {
      var n := |rows| - 1;
      ProcessedDataKeys(rows[..n], f);
      if exists i :: 0 <= i < n && rows[..n][i].filename == Str(f) {
        var i :| 0 <= i < n && rows[..n][i].filename == Str(f);
        assert rows[i].filename == Str(f);
      }
      if exists i :: 0 <= i < |rows| && rows[i].filename == Str(f) {
        var i :| 0 <= i < |rows| && rows[i].filename == Str(f);
        if i < n {
          assert rows[..n][i].filename == Str(f);
        }
      }
    }
  }

  /** The last row carrying a filename decides its entry. */
  lemma {:induction false} LastRowWins(rows: seq<SheetRow>, i: nat)
    requires i < |rows| && rows[i].filename.Str?
    requires forall j :: i < j < |rows| ==> rows[j].filename != rows[i].filename
    ensures rows[i].filename.text in ProcessedData(rows)
    ensures ProcessedData(rows)[rows[i].filename.text] == EntryOf(rows[i])
  {
    var n := |rows| - 1;
    if i < n {
      var init := rows[..n];
      assert init[i] == rows[i];
      assert forall j :: i < j < |init| ==> init[j] == rows[j];
      LastRowWins(init, i);
    }
  }

  /** `processed_data[filename]` when present. */
  function Lookup(data: map<string, Entry>, filename: string): (d: Option<Entry>)
    ensures d.Some? <==> filename in data
    ensures d.Some? ==> d.value == data[filename]
  {
    if filename in data then Some(data[filename]) else None
  }

  // ---------------------------------------------------------------- one reference

  /** `'error' not in str(s).lower()` fails. */
  predicate HasError(s: string) {
    Contains(Lower(s), "error")
  }

  /** The placeholder title has no "error" in it. */
  lemma TitlePlaceholderClean()
    ensures !HasError(TitlePlaceholder)
  {
    var l := Lower(TitlePlaceholder);
    assert l == "title not extracted";
    NoPairNoContains(l, "error");
  }

  /** The title choice: the stored title when non-empty and not the filename. */
  function ChosenTitle(d: Option<Entry>, filename: string): string
  {
    if d.Some? && d.value.title != "" && d.value.title != filename then d.value.title
    else TitlePlaceholder
  }

  /** The abstract choice: the stored abstract when non-empty and free of "error". */
  function ChosenAbstract(d: Option<Entry>): string
  {
    if d.Some? && d.value.abstractText != "" && !HasError(d.value.abstractText) then d.value.abstractText
    else AbstractPlaceholder
  }

  function ChosenMethod(d: Option<Entry>): string
  {
    if d.Some? && d.value.methodText != "" && !HasError(d.value.methodText) then d.value.methodText
    else MethodPlaceholder
  }

  function ChosenCategories(d: Option<Entry>): string
  {
    if d.Some? && d.value.categories != "" then d.value.categories else CategoriesPlaceholder
  }

  /** The title test of both files: non-empty, not the filename, no "error". */
  predicate TitleShown(title: string, filename: string) {
    title != "" && title != filename && !HasError(title)
  }

  /** What one reference block shows: its 1-based number, the filename, and
      each optional line's text when that line is written. */
  datatype Reference = Reference(
    index: nat,
    filename: string,
    title: Option<string>,
    categories: Option<string>,
    abstractText: Option<string>,
    methodText: Option<string>)

  /** The `Title:` line's text, when the chosen title passes the title test. */
  function TitleOf(d: Option<Entry>, filename: string): Option<string>
  {
    var title := ChosenTitle(d, filename);
    if TitleShown(title, filename) then Some(title) else None
  }

  /** The `Categories:` line's text, when the choice is not the placeholder. */
  function CategoriesOf(d: Option<Entry>): Option<string>
  {
    var categories := ChosenCategories(d);
    if categories != "" && categories != CategoriesPlaceholder then Some(categories) else None
  }

  /** The `Abstract:` line's text, cut to 200 characters. */
  function AbstractOf(d: Option<Entry>): Option<string>
  {
    var abstractText := ChosenAbstract(d);
    if abstractText != "" && abstractText != AbstractPlaceholder && !HasError(abstractText)
    then Some(Truncate(abstractText, AbstractLimit)) else None
  }

  /** The `Method:` line's text, cut to 150 characters. */
  function MethodOf(d: Option<Entry>): Option<string>
  {
    var methodText := ChosenMethod(d);
    if methodText != "" && methodText != MethodPlaceholder && !HasError(methodText)
    then Some(Truncate(methodText, MethodLimit)) else None
  }

  /** The block of the PDF numbered `i`, from its entry if it has one. */
  function ReferenceOf(i: nat, filename: string, d: Option<Entry>): Reference
  {
    Reference(i, filename, TitleOf(d, filename), CategoriesOf(d), AbstractOf(d), MethodOf(d))
  }

  /** A PDF with no entry shows only the placeholder title, and that one
      whenever the filename is not the placeholder itself. */
  lemma UnmatchedReference(i: nat, filename: string)
    ensures ReferenceOf(i, filename, None)
         == Reference(i, filename, if filename != TitlePlaceholder then Some(TitlePlaceholder) else None,
                      None, None, None)
  {
    TitlePlaceholderClean();
  }

  /** For a matched PDF, the `Title:` line shows the stored title exactly
      when the title passes the title test. An empty title or one equal to the filename is replaced
      by the placeholder, which is shown unless it is the filename; a title
      with "error" in it is replaced by nothing. */
  lemma StoredTitleShown(filename: string, e: Entry)
    ensures TitleOf(Some(e), filename) == Some(e.title) <==> TitleShown(e.title, filename)
    ensures e.title == "" || e.title == filename ==>
      TitleOf(Some(e), filename) == (if filename != TitlePlaceholder then Some(TitlePlaceholder) else None)
    ensures e.title != "" && e.title != filename && HasError(e.title) ==> TitleOf(Some(e), filename).None?
  {
    TitlePlaceholderClean();
  }

  /** The abstract line is written exactly for a stored abstract that is
      non-empty, free of "error" and not the placeholder text, cut to 200
      characters plus `"..."` when longer. */
  lemma AbstractShown(e: Entry)
    ensures var a := AbstractOf(Some(e));
      && (a.Some? <==> e.abstractText != "" && e.abstractText != AbstractPlaceholder && !HasError(e.abstractText))
      && (a.Some? ==> a.value == Truncate(e.abstractText, AbstractLimit) && |a.value| <= AbstractLimit + 3)
  {
  }

  /** Likewise for the method, at 150 characters. */
  lemma MethodShown(e: Entry)
    ensures var m := MethodOf(Some(e));
      && (m.Some? <==> e.methodText != "" && e.methodText != MethodPlaceholder && !HasError(e.methodText))
      && (m.Some? ==> m.value == Truncate(e.methodText, MethodLimit) && |m.value| <= MethodLimit + 3)
  {
  }

  /** The categories line shows the stored value whenever it is non-empty and
      not the placeholder text; no placeholder is ever shown. */
  lemma CategoriesShown(d: Option<Entry>)
    ensures var c := CategoriesOf(d);
      && (c.Some? <==> d.Some? && d.value.categories != "" && d.value.categories != CategoriesPlaceholder)
      && (c.Some? ==> c.value == d.value.categories)
  {
  }

  /** The header line of block `i`. */
  function HeaderLine(i: nat, filename: string): string
  {
    "REFERENCE " + Pad3(i) + ": " + filename
  }

  function OptionalLine(tag: string, v: Option<string>): (ls: seq<string>)
    ensures v.None? ==> ls == []
    ensures v.Some? ==> ls == [tag + v.value]
  {
    if v.Some? then [tag + v.value] else []
  }

  /** The lines one block writes: header, rule, filename, the optional
      lines in the order title, categories, abstract, method, then a blank. */
  function Render(r: Reference): (lines: seq<string>)
    ensures 4 <= |lines| <= 8
    ensures lines[0] == HeaderLine(r.index, r.filename)
    ensures lines[1] == Repeat('-', 60) && lines[2] == "Filename: " + r.filename
    ensures lines[|lines| - 1] == ""
  {
    [HeaderLine(r.index, r.filename), Repeat('-', 60), "Filename: " + r.filename]
    + OptionalLine("Title: ", r.title)
    + OptionalLine("Categories: ", r.categories)
    + OptionalLine("Abstract: ", r.abstractText)
    + OptionalLine("Method: ", r.methodText)
    + [""]
  }

  // ---------------------------------------------------------------- the references file

  /** A line that opens a reference block: `REFERENCE ` and then a digit of
      its number (so the preamble's `REFERENCE FORMATS:` opens none). */
  predicate IsHeader(line: string) {
    StartsWith(line, "REFERENCE ") && |line| > 10 && IsDigit(line[10])
  }

  function CountHeaders(lines: seq<string>): nat
  {
    if lines == [] then 0
    else CountHeaders(lines[..|lines| - 1]) + (if IsHeader(lines[|lines| - 1]) then 1 else 0)
  }

  lemma {:induction false} CountHeadersAppend(a: seq<string>, b: seq<string>)
    ensures CountHeaders(a + b) == CountHeaders(a) + CountHeaders(b)
    decreases |b|
  {
    if b == [] {
      assert a + b == a;
    } else {
      var n := |b| - 1;
      assert (a + b)[..|a + b| - 1] == a + b[..n];
      CountHeadersAppend(a, b[..n]);
    }
  }

  /** A string whose first character is not `'R'` opens no block. */
  lemma NotHeader(line: string)
    requires line == [] || line[0] != 'R'
    ensures !IsHeader(line)
  {
    if |line| >= 10 {
      assert line[..10][0] == line[0];
    }
  }

  lemma OptionalLineNotHeader(tag: string, v: Option<string>)
    requires |tag| > 0 && tag[0] != 'R'
    ensures CountHeaders(OptionalLine(tag, v)) == 0
  {
    if v.Some? {
      var line := tag + v.value;
      assert line[0] == tag[0];
      NotHeader(line);
      assert [line][..0] == [];
    }
  }

  /** Every block holds exactly one header line. */
  lemma OneHeaderPerBlock(r: Reference)
    ensures CountHeaders(Render(r)) == 1
  {
    var h, dash, file := HeaderLine(r.index, r.filename), Repeat('-', 60), "Filename: " + r.filename;
    assert h[..10] == "REFERENCE ";
    Pad3Value(r.index);
    assert h[10] == Pad3(r.index)[0];
    assert dash[0] == '-';
    NotHeader(dash);
    assert file[0] == 'F';
    NotHeader(file);
    NotHeader("");
    assert [h][..0] == [];
    assert CountHeaders([h]) == 1;
    assert [h, dash][..1] == [h];
    assert CountHeaders([h, dash]) == 1;
    assert [h, dash, file][..2] == [h, dash];
    assert CountHeaders([h, dash, file]) == 1;
    var t, c, a, m := OptionalLine("Title: ", r.title), OptionalLine("Categories: ", r.categories),
      OptionalLine("Abstract: ", r.abstractText), OptionalLine("Method: ", r.methodText);
    OptionalLineNotHeader("Title: ", r.title);
    OptionalLineNotHeader("Categories: ", r.categories);
    OptionalLineNotHeader("Abstract: ", r.abstractText);
    OptionalLineNotHeader("Method: ", r.methodText);
    assert [""][..0] == [];
    CountHeadersAppend([h, dash, file], t);
    CountHeadersAppend([h, dash, file] + t, c);
    CountHeadersAppend([h, dash, file] + t + c, a);
    CountHeadersAppend([h, dash, file] + t + c + a, m);
    CountHeadersAppend([h, dash, file] + t + c + a + m, [""]);
  }

  /** The block of the PDF at position `k` (numbered `k + 1`). */
  function ReferenceAt(pdfs: seq<string>, data: map<string, Entry>, k: nat): Reference
    requires k < |pdfs|
  {
    ReferenceOf(k + 1, pdfs[k], Lookup(data, pdfs[k]))
  }

  /** The blocks of all PDFs, in file-list order. */
  function Blocks(pdfs: seq<string>, data: map<string, Entry>): seq<string>
  {
    if pdfs == [] then []
    else Blocks(pdfs[..|pdfs| - 1], data) + Render(ReferenceAt(pdfs, data, |pdfs| - 1))
  }

  /** The blocks hold one header per PDF. */
  lemma {:induction false} OneHeaderPerPdf(pdfs: seq<string>, data: map<string, Entry>)
    ensures CountHeaders(Blocks(pdfs, data)) == |pdfs|
  {
    if pdfs != [] {
      var n := |pdfs| - 1;
      var init := pdfs[..n];
      OneHeaderPerPdf(init, data);
      assert ReferenceAt(pdfs, data, n) == ReferenceOf(n + 1, pdfs[n], Lookup(data, pdfs[n]));
      CountHeadersAppend(Blocks(init, data), Render(ReferenceAt(pdfs, data, n)));
      OneHeaderPerBlock(ReferenceAt(pdfs, data, n));
    }
  }

  /** Block `k` is numbered `k + 1`, and the header's digits read back as
      that number. */
  lemma BlockNumbering(pdfs: seq<string>, data: map<string, Entry>, k: nat)
    requires k < |pdfs|
    ensures ReferenceAt(pdfs, data, k).index == k + 1
    ensures |Pad3(k + 1)| >= 3 && DecimalValue(Pad3(k + 1)) == k + 1
    ensures Render(ReferenceAt(pdfs, data, k))[0] == "REFERENCE " + Pad3(k + 1) + ": " + pdfs[k]
  {
    Pad3Value(k + 1);
  }

  /** The lines before the blocks. */
  function ReferencesPreamble(now: string, total: nat): seq<string>
  {
    ["PAPER REFERENCES FOR FINAL DOCUMENT", Repeat('=', 80), "",
     "Generated on: " + now, "Total papers: " + Digits(total), "",
     "REFERENCE FORMATS:", Repeat('-', 40), ""]
  }

  /** No line of the preamble opens a block. */
  lemma PreambleHasNoHeader(now: string, total: nat)
    ensures CountHeaders(ReferencesPreamble(now, total)) == 0
  {
    var p := ReferencesPreamble(now, total);
    forall i | 0 <= i < |p|
      ensures !IsHeader(p[i])
    {
      if i == 6 {
        assert p[i][10] == 'F';
      } else {
        assert p[i] == [] || p[i][0] != 'R';
        NotHeader(p[i]);
      }
    }
    NoHeaders(p);
  }

  lemma {:induction false} NoHeaders(lines: seq<string>)
    requires forall i :: 0 <= i < |lines| ==> !IsHeader(lines[i])
    ensures CountHeaders(lines) == 0
  {
    if lines != [] {
      NoHeaders(lines[..|lines| - 1]);
    }
  }

  /** The whole references file holds exactly one header per PDF. */
  lemma ReferencesFileHeaders(now: string, pdfs: seq<string>, data: map<string, Entry>)
    ensures CountHeaders(ReferencesPreamble(now, |pdfs|) + Blocks(pdfs, data)) == |pdfs|
  {
    PreambleHasNoHeader(now, |pdfs|);
    OneHeaderPerPdf(pdfs, data);
    CountHeadersAppend(ReferencesPreamble(now, |pdfs|), Blocks(pdfs, data));
  }

  /** The block-writing loop of `paper_references.txt`. */
  method WriteReferences(now: string, pdfs: seq<string>, data: map<string, Entry>) returns (lines: seq<string>)
    ensures lines == ReferencesPreamble(now, |pdfs|) + Blocks(pdfs, data)
    ensures CountHeaders(lines) == |pdfs|
  {
    ReferencesFileHeaders(now, pdfs, data);
    var blocks: seq<string> := [];
    var i := 0;
    while i < |pdfs|
      invariant 0 <= i <= |pdfs|
      invariant blocks == Blocks(pdfs[..i], data)
    {
      var block := Render(ReferenceOf(i + 1, pdfs[i], Lookup(data, pdfs[i])));
      BlocksStep(pdfs, data, i);
      blocks := blocks + block;
      i := i + 1;
    }
    assert pdfs[..i] == pdfs;
    lines := ReferencesPreamble(now, |pdfs|) + blocks;
  }

  lemma BlocksStep(pdfs: seq<string>, data: map<string, Entry>, i: nat)
    requires i < |pdfs|
    ensures Blocks(pdfs[..i + 1], data)
         == Blocks(pdfs[..i], data) + Render(ReferenceOf(i + 1, pdfs[i], Lookup(data, pdfs[i])))
  {
    var pre := pdfs[..i + 1];
    assert pre[..i] == pdfs[..i] && pre[i] == pdfs[i];
    assert ReferenceAt(pre, data, i) == ReferenceOf(i + 1, pdfs[i], Lookup(data, pdfs[i]));
  }

  // ---------------------------------------------------------------- the numbered file

  /** What a numbered line shows: the stored title if it passes the title
      test, else the filename. */
  function NumberedText(filename: string, d: Option<Entry>): string
  {
    if d.Some? && TitleShown(d.value.title, filename) then d.value.title else filename
  }

  function NumberedLine(i: nat, filename: string, d: Option<Entry>): string
  {
    "[" + Pad3(i) + "] " + NumberedText(filename, d)
  }

  /** The numbered line and the reference block agree on the title: for a
      stored title, the numbered line shows it exactly when the block's
      `Title:` line does. */
  lemma NumberedAgreesWithBlock(filename: string, e: Entry)
    ensures (NumberedText(filename, Some(e)) == e.title && e.title != filename)
        <==> TitleOf(Some(e), filename) == Some(e.title)
  {
    StoredTitleShown(filename, e);
  }

  /** An unmatched PDF's numbered line shows its filename. */
  lemma UnmatchedNumbered(i: nat, filename: string)
    ensures NumberedLine(i, filename, None) == "[" + Pad3(i) + "] " + filename
  {
  }

  const NumberedPreamble: seq<string> := ["NUMBERED REFERENCES FOR CITATIONS", Repeat('=', 50), ""]

  /** The loop of `numbered_references.txt`: one line per PDF, numbered from
      1 in file-list order. */
  method WriteNumbered(pdfs: seq<string>, data: map<string, Entry>) returns (lines: seq<string>)
    ensures |lines| == |NumberedPreamble| + |pdfs|
    ensures lines[..|NumberedPreamble|] == NumberedPreamble
    ensures forall k :: 0 <= k < |pdfs| ==>
      lines[|NumberedPreamble| + k] == NumberedLine(k + 1, pdfs[k], Lookup(data, pdfs[k]))
  {
    lines := NumberedPreamble;
    var p := |NumberedPreamble|;
    var i := 0;
    while i < |pdfs|
      invariant 0 <= i <= |pdfs|
      invariant |lines| == p + i
      invariant lines[..p] == NumberedPreamble
      invariant forall k :: 0 <= k < i ==> lines[p + k] == NumberedLine(k + 1, pdfs[k], Lookup(data, pdfs[k]))
    {
      var filename := pdfs[i];
      var line: string;
      if filename in data {
        var title := data[filename].title;
        if title != "" && title != filename && !HasError(title) {
          line := "[" + Pad3(i + 1) + "] " + title;
        } else {
          line := "[" + Pad3(i + 1) + "] " + filename;
        }
      } else {
        line := "[" + Pad3(i + 1) + "] " + filename;
      }
      assert line == NumberedLine(i + 1, filename, Lookup(data, filename));
      assert (lines + [line])[..p] == lines[..p];
      lines := lines + [line];
      i := i + 1;
    }
  }

  // ---------------------------------------------------------------- the run

  /** Both files' lines when the run writes them. */
  datatype Written = Written(references: seq<string>, numbered: seq<string>)

  /** `create_references_file`: `None` (and nothing written) for a missing
      papers directory or an empty PDF list; otherwise the PDF count, with
      both files written from the map of the table, when it can be read. */
  method CreateReferencesFile(dirExists: bool, pdfs: seq<string>, table: Option<seq<SheetRow>>, now: string)
    returns (count: Option<nat>, files: Option<Written>)
    ensures count.None? <==> !dirExists || pdfs == []
    ensures count.None? <==> files.None?
    ensures count.Some? ==> count.value == |pdfs|
    ensures files.Some? ==>
      var data := if table.Some? then ProcessedData(table.value) else map[];
      && files.value.references == ReferencesPreamble(now, |pdfs|) + Blocks(pdfs, data)
      && |files.value.numbered| == |NumberedPreamble| + |pdfs|
      && forall k :: 0 <= k < |pdfs| ==>
           files.value.numbered[|NumberedPreamble| + k] == NumberedLine(k + 1, pdfs[k], Lookup(data, pdfs[k]))
  {
    if !dirExists || pdfs == [] {
      return None, None;
    }
    var data: map<string, Entry> := map[];
    if table.Some? {
      data := BuildProcessedData(table.value);
    }
    var references := WriteReferences(now, pdfs, data);
    var numbered := WriteNumbered(pdfs, data);
    return Some(|pdfs|), Some(Written(references, numbered));
  }
}
