# iot-report: the deterministic core, modelled in Dafny

The iot-report scripts turn a folder of research-paper PDFs into one summary
row per paper in `batch_papers_summary.xlsx`, and then post-process that table
into report sections, a category grouping analysis, reference lists and a
data-quality audit. This project models the rules under the library calls:

- `pdf_processor.py` (module `PdfProcessor`): the five-strategy text
  extraction cascade behind its quality gate, the metadata service's retry
  loop with exponential backoff, the record-or-placeholder rule of
  `process_single_pdf`, and `save_to_excel` as an append-only update of a
  workbook object (`PdfProcessor.ExcelFile`).
- `batch_processor.py` (module `BatchProcessor`): the cut of the file list
  into numbered batches, the success/failure tally, the ordered saves after
  each gather, the pause that happens only between batches, and the totals.
- `report_categorizer.py` (module `ReportCategorizer`): the skip filter, the
  two-phase keyword scorer and its first-strict-maximum winner with the
  `4_Industry_Applications` default, the per-section files and summary
  entries, the summary join, and the prompt file names.
- `category_analyzer.py` (module `CategoryAnalyzer`): flattening, cleaning
  and counting the stored categories, first-match filing into research areas,
  the stable descending ranking, the significant areas and the recommended
  structure with its pages per section.
- `create_references.py` (module `CreateReferences`): the filename-to-data
  map, the per-field fallback and truncation rules, the 3-digit numbering of
  both output files.
- `excel_analyzer.py` (module `ExcelAnalyzer`): the error-indicator tally,
  the text samples and the category counter.

Shared pieces live in `wrappers.dfy` (`Option`, `Result`), `text.dfy`
(module `Text`: Python's `strip`, ASCII `lower`, substring search, `join`,
`split`, truncation with `"..."`, decimal printing and `:03d` padding) and
`sheet.dfy` (module `Sheet`: the table as the scripts read it back, the
category-list flattening and `collections.Counter`).

The outside world enters as parameters: each extraction library's answer for
a document is a value (`Pages`, `Whole` or a raised error), the metadata
service is a function from attempt number to outcome, `json.loads` and `eval`
are parser functions, the clock is a string, a failed workbook write is an
optional error message, and the table read from Excel is a sequence of rows
(or `None` when reading raised). Loops of the source are methods with loop
invariants, each proved equal to a specification function; the properties
are lemmas about those functions.

Where the code and its written description disagree, the model follows the
code:

- the text handed to the metadata service is not cut to 15,000 characters
  (pdf_processor.py:168 passes the whole text);
- the retry loop raises after the last failed attempt without sleeping, so
  three failures sleep 1 and 2 seconds, not 1, 2 and 4;
- a record carries no status field; the error is the second element of the
  `(record, error)` pair;
- the saves of a batch run one after another once the whole gather has
  returned, not as each task finishes;
- a failed save is printed and dropped, never retried.

## Model

| member | source | states |
|---|---|---|
| Text.Strip | pdf_processor.py:36 | `strip()` leaves no Python whitespace at either end and is no longer than its input |
| Text.StripIsInfix | pdf_processor.py:36 | the stripped text is an infix of the input, and everything cut off before and after it is whitespace |
| Text.StripIdempotent | category_analyzer.py:35 | stripping twice is stripping once |
| Text.Lower | report_categorizer.py:119 | ASCII `lower()`: same length, each character lowered |
| Text.LowerIdempotent | category_analyzer.py:35 | lowering twice is lowering once |
| Text.LowerAppend | report_categorizer.py:139 | lowering a concatenation lowers each part |
| Text.Split | report_categorizer.py:371 | the `_`-split of a key: fields without separator whose join is the key |
| Text.SplitJoin | report_categorizer.py:371 | splitting a join of separator-free fields gives the fields back |
| Text.SplitFirstTwo | report_categorizer.py:371 | the first two fields of `a_b_rest` are `a` and `b` |
| Text.Truncate | create_references.py:96-97 | a text of at most `n` characters is unchanged; a longer one becomes its first `n` characters followed by `"..."` |
| Text.Pad3Value | create_references.py:78 | `{i:03d}` has at least three characters, all digits, and reads back as `i` |
| Text.DigitsValue | create_references.py:78 | the decimal digits of `n` read back as `n` |
| Sheet.CellStr | report_categorizer.py:103 | `str(cell)`: a string cell is its text, a missing one `"nan"` |
| Sheet.Mentions | category_analyzer.py:19-29 | a string cell starting with `[` gives its parsed items, or itself when parsing raised; any other string gives itself; missing and non-string cells give nothing |
| Sheet.FlattenCategories | category_analyzer.py:18-29 | the flatten loop yields every row's mentions, in row order |
| Sheet.AllMentionsSkipsNonStrings | excel_analyzer.py:35-36 | rows without a string categories cell contribute no mention |
| Sheet.Occurrences | category_analyzer.py:38 | a count is at most the list's length and positive exactly for members |
| Sheet.Distinct | category_analyzer.py:38 | the keys of `Counter`: no duplicates, exactly the values of the list |
| Sheet.CounterOf | category_analyzer.py:38 | `Counter(xs).items()`: each distinct value with its number of occurrences |
| Sheet.CounterSumsToLength | category_analyzer.py:38-42 | the counts add up to the number of mentions |
| Sheet.CounterKeys | category_analyzer.py:38-39 | distinct keys, exactly the counted values, each with a positive count |
| PdfProcessor.NonBlankPages | pdf_processor.py:28-35 | the kept pages are non-blank pages of the document, in page order |
| PdfProcessor.NonBlankPagesAppend | pdf_processor.py:47-53 | keeping the non-blank pages of two page runs keeps those of each |
| PdfProcessor.NonBlankPagesSingle | pdf_processor.py:77-83 | a page is kept exactly when its stripped text is non-empty |
| PdfProcessor.OcrPageCount | pdf_processor.py:98 | OCR visits `min(5, page_count)` pages |
| PdfProcessor.OcrPartsStep | pdf_processor.py:98-107 | visiting page `n` adds `"=== PAGE n+1 (OCR) ===\n"` and its text unless it is blank |
| PdfProcessor.OcrOnlyFirstFivePages | pdf_processor.py:98-107 | documents that agree on their first five pages give the same OCR text |
| PdfProcessor.JoinNonBlankPages | pdf_processor.py:28-35 | the page loop of PyMuPDF, pdfplumber and PyPDF2 yields the non-blank pages joined by newlines |
| PdfProcessor.OcrPages | pdf_processor.py:93-113 | the OCR loop yields the bannered non-blank pages among the first five |
| PdfProcessor.RunStrategy | pdf_processor.py:26-119 | running strategy `k` yields its candidate text, or nothing when it raised |
| PdfProcessor.TryStrategy | pdf_processor.py:36 | a strategy's text is accepted exactly when it passes the gate `len(text.strip()) > 100` |
| PdfProcessor.Winner | pdf_processor.py:25-116 | the winner is a passing strategy and every earlier one fails; no winner means none passes |
| PdfProcessor.Cascade | pdf_processor.py:20-123 | a returned text passes the gate; the cascade raises "All extraction methods failed" exactly when no strategy passes |
| PdfProcessor.AttemptCount | pdf_processor.py:25-116 | between one and five strategies run |
| PdfProcessor.CascadeReturnsFirstPassing | pdf_processor.py:25-119 | the first passing strategy's text is returned and exactly the strategies up to it run |
| PdfProcessor.ThirdStrategyWins | pdf_processor.py:26-71 | if the first two fail and PDFMiner passes, PDFMiner's text is returned after exactly three strategies |
| PdfProcessor.ExtractTextRobust | pdf_processor.py:20-123 | the cascade method returns what `Cascade` says and runs the strategies in order up to the winner |
| PdfProcessor.Backoffs | pdf_processor.py:185-186 | the sleeps after `k` failed attempts are `2**0 .. 2**(k-1)` |
| PdfProcessor.FirstCompleted | pdf_processor.py:160-180 | the first completed attempt, with every earlier attempt failed |
| PdfProcessor.ExtractPaperInfo | pdf_processor.py:157-190 | at most `max_retries` calls, the first completed reply is returned, the last failure raises without a sleep, the sleeps are `2**a`, and no call is made when `max_retries <= 0` |
| PdfProcessor.FirstCompletedStable | pdf_processor.py:160-180 | more allowed attempts do not change which attempt completes first |
| PdfProcessor.ThreeFailures | pdf_processor.py:157-190 | three failing attempts make three calls, sleep 1 then 2 seconds, and raise |
| PdfProcessor.DefaultRetriesNeverReturnNone | pdf_processor.py:157-190 | with three retries the loop ends in a reply or an exception, after at most three calls and two sleeps |
| PdfProcessor.ProcessSpec | pdf_processor.py:210-238 | the record always carries the document's name; it is the parsed payload exactly when extraction, service and parse all succeed, and the empty placeholder on any error |
| PdfProcessor.ProcessSinglePdf | pdf_processor.py:210-238 | `process_single_pdf` returns the record and error `ProcessSpec` gives |
| PdfProcessor.ExcelFile.constructor | pdf_processor.py:197-202 | a workbook that does not exist holds no rows |
| PdfProcessor.ExcelFile.SaveToExcel | pdf_processor.py:193-207 | on success the rows become the old rows plus the stamped record; on failure nothing changes and the error is "Error saving to Excel: ..." |
| BatchProcessor.RecordFor | batch_processor.py:19-42 | a raised task is saved as its document's placeholder |
| BatchProcessor.CountsCoverBatch | batch_processor.py:19-42 | every result is counted exactly once: successes plus failures is the batch size |
| BatchProcessor.CountsAppend | batch_processor.py:19-42 | tallies of consecutive slices add up |
| BatchProcessor.EmptyErrorIsSuccess | batch_processor.py:30-35 | a task that returned an empty error message counts as a success |
| BatchProcessor.Gathered | batch_processor.py:12-13 | the gather gives one result per document, in order |
| BatchProcessor.GatherNamesRecord | batch_processor.py:19-42 | the record saved for a document carries its name |
| BatchProcessor.GatherBatchWith | batch_processor.py:12-13 | each task of a batch runs `process_single_pdf` and the results keep input order |
| BatchProcessor.SaveOne | batch_processor.py:45-48 | a failed save leaves the workbook as it was; a successful one appends the stamped record |
| BatchProcessor.SaveAll | batch_processor.py:19-48 | the saves keep the old rows as a prefix and add at most one row per document |
| BatchProcessor.SaveAllAppend | batch_processor.py:19-48 | saving two slices in turn is saving their concatenation |
| BatchProcessor.SaveAllInOrder | batch_processor.py:19-48 | with no failing save the workbook gains exactly the batch's records, in input order |
| BatchProcessor.SaveFailureSkipsRow | batch_processor.py:45-48 | a failing save adds no row |
| BatchProcessor.ProcessPdfBatch | batch_processor.py:7-51 | the tally loop counts every result once and the workbook ends as the ordered saves leave it |
| BatchProcessor.BatchCountIsCeiling | batch_processor.py:79 | `range(0, n, bs)` yields `ceil(n / bs)` batch starts |
| BatchProcessor.BatchStartInRange | batch_processor.py:79 | batch `j` starts before the end of the list exactly when it exists |
| BatchProcessor.BatchNumber | batch_processor.py:81 | the batch number `i // bs + 1` of batch `j` is `j + 1` |
| BatchProcessor.BatchAt | batch_processor.py:80 | every batch holds between 1 and `bs` files, all but the last exactly `bs` |
| BatchProcessor.BatchesPrefix | batch_processor.py:79-80 | the first `j` batches, concatenated, are the first `min(j * bs, n)` files |
| BatchProcessor.BatchesCoverList | batch_processor.py:79-80 | the batches, concatenated, are the whole file list |
| BatchProcessor.LogAt | batch_processor.py:81-97 | batch `j`'s log line has number `j + 1`, and a two-second pause follows it exactly when a later batch exists, that is when `processed < n` |
| BatchProcessor.ProgressMonotone | batch_processor.py:91 | `processed` never decreases and is `n` after the last batch |
| BatchProcessor.PauseOnlyBetweenBatches | batch_processor.py:96-97 | every batch but the last is followed by the two-second pause, and the last by none |
| BatchProcessor.TwelveFilesTwoBatches | batch_processor.py:55-97 | twelve files in batches of the default ten give batches of 10 and 2 files with one two-second pause between them |
| BatchProcessor.ProcessInBatches | batch_processor.py:79-97 | the batch loop's totals count every file once, its log is every batch's line, and the workbook holds every save in input order |
| BatchProcessor.ProgressDone | batch_processor.py:100-107 | when the loop stops, the totals and the saves cover every file |
| BatchProcessor.BatchProcessPapers | batch_processor.py:54-107 | a missing directory or an empty file list returns before any processing; otherwise the totals add up to the number of files |
| ReportCategorizer.PaperCategories | report_categorizer.py:108-116 | a missing cell gives `[]`, a `[`-prefixed string its parsed list or itself, any other value a singleton |
| ReportCategorizer.LowerAll | report_categorizer.py:119 | each paper category lowered, in order |
| ReportCategorizer.PaperOf | report_categorizer.py:153-164 | the appended paper keeps the row's filename and summary and the parsed category list |
| ReportCategorizer.CategoryScore | report_categorizer.py:125-131 | phase one's score is at most the number of keywords |
| ReportCategorizer.TextScore | report_categorizer.py:141-145 | phase two's score is at most the number of keywords |
| ReportCategorizer.Best | report_categorizer.py:133-135 | no best match exactly when every score is 0; otherwise the best is a maximum and every earlier score is strictly lower |
| ReportCategorizer.Assigned | report_categorizer.py:151-178 | every usable row goes to one of the four sections |
| ReportCategorizer.AssignedIsFirstBest | report_categorizer.py:122-178 | phase one's first strict maximum wins when positive; otherwise phase two's; otherwise `4_Industry_Applications` |
| ReportCategorizer.AiMatchesSupplyChain | report_categorizer.py:127-131 | matching is by substring: the keyword `"ai"` is found in `"supply chain"` |
| ReportCategorizer.HitScores | report_categorizer.py:127-131 | one keyword found in some category makes the score positive |
| ReportCategorizer.CategoryScoreMonotone | report_categorizer.py:127-131 | a longer keyword list never scores lower than its prefix |
| ReportCategorizer.CountKeywordHits | report_categorizer.py:126-131 | the nested keyword loop with its `break` counts each keyword at most once |
| ReportCategorizer.CountKeywordsInText | report_categorizer.py:142-145 | phase two's loop counts the keywords found in the text |
| ReportCategorizer.PickBest | report_categorizer.py:122-135 | the section loop keeps the running maximum and the first section reaching it |
| ReportCategorizer.CategorizeRow | report_categorizer.py:108-178 | the method for one row picks the section `Assigned` gives |
| ReportCategorizer.Sections | report_categorizer.py:99-178 | one section list per category, each the papers of its rows in row order |
| ReportCategorizer.SectionStep | report_categorizer.py:153-178 | one more usable row is appended to its own section and to no other |
| ReportCategorizer.TotalIsUsableRows | report_categorizer.py:183-191 | `total_papers` is the number of rows not skipped |
| ReportCategorizer.CategorizePapers | report_categorizer.py:99-178 | the categorising loop builds exactly the sections `Sections` gives |
| ReportCategorizer.TruthySummaries | report_categorizer.py:225-227 | the kept summaries are non-empty and no more than the papers |
| ReportCategorizer.CombinedSummaryEmpty | report_categorizer.py:228 | the joined summary is empty exactly when no summary is kept |
| ReportCategorizer.SummariesFrom | report_categorizer.py:202-244 | only non-empty sections get an entry |
| ReportCategorizer.SummariesCountEveryPaper | report_categorizer.py:239-244 | leaving out empty sections loses no paper |
| ReportCategorizer.SummaryKeys | report_categorizer.py:239-244 | every entry is that of a non-empty section |
| ReportCategorizer.BaseTotalIsUsableRows | report_categorizer.py:270 | the base prompt's paper total is the number of rows not skipped |
| ReportCategorizer.FilesOfSnoc | report_categorizer.py:239-249 | the files of one more saved section follow those already written |
| ReportCategorizer.SaveCategorizedPapers | report_categorizer.py:202-249 | the saving loop yields the entries, joined summaries and three files per non-empty section, in section order |
| ReportCategorizer.PromptFileName | report_categorizer.py:370-372 | a key without `_` has no prompt file (the split raises) |
| ReportCategorizer.PromptFileOfKey | report_categorizer.py:370-372 | a key `a_b_rest` is written to `a_b_prompt.txt` |
| ReportCategorizer.SectionPromptFiles | report_categorizer.py:370-372 | the four sections write `1_Scheduling_prompt.txt`, `2_Algorithms_prompt.txt`, `3_AI_prompt.txt` and `4_Industry_prompt.txt` |
| ReportCategorizer.GenerateReportPrompts | report_categorizer.py:257-425 | the base context first, one prompt per entry, the final instructions last; the base total is the sum of the paper counts |
| ReportCategorizer.CategorizeWith | report_categorizer.py:8-254 | an empty table ends in a division error; otherwise the sections with every usable row counted once, the entries, the joined summaries and the three files of each non-empty section, and the prompt files: `00_base_context.txt`, one `a_b_prompt.txt` per entry in entry order, `99_final_instructions.txt` |
| ReportCategorizer.CategorizePapersForReport | report_categorizer.py:8-254 | the same outcome over the four declared sections |
| CategoryAnalyzer.Clean | category_analyzer.py:35 | a cleaned category is lowercase, no longer than before, and the lowered `strip()` |
| CategoryAnalyzer.CleanCategories | category_analyzer.py:32-36 | the cleaning loop cleans every mention, in order |
| CategoryAnalyzer.CleanIdempotent | category_analyzer.py:35 | cleaning twice is cleaning once |
| CategoryAnalyzer.FirstArea | category_analyzer.py:136-141 | a category is filed under the first area with a matching keyword, and under none exactly when no area matches |
| CategoryAnalyzer.AreaItems | category_analyzer.py:139 | an area's list holds counted categories whose first matching area is that area |
| CategoryAnalyzer.Uncategorized | category_analyzer.py:143-144 | the uncategorised list holds counted categories no area matches |
| CategoryAnalyzer.AreaCounts | category_analyzer.py:138 | an area's total is the sum of its items' counts |
| CategoryAnalyzer.FileCategory | category_analyzer.py:135-141 | the inner area loop stops at the first matching area |
| CategoryAnalyzer.AssignAreas | category_analyzer.py:130-144 | the filing loop builds the area totals, the area lists and the uncategorised list |
| CategoryAnalyzer.FileInArea | category_analyzer.py:137-141 | filing a category under its area adds its count and item there and nowhere else |
| CategoryAnalyzer.FileUncategorized | category_analyzer.py:143-144 | a category no area matches goes to the uncategorised list alone |
| CategoryAnalyzer.ProductionIsScheduling | category_analyzer.py:134-141 | first match wins: `"production"` is filed under Scheduling & Optimization |
| CategoryAnalyzer.FilingConserves | category_analyzer.py:130-144 | area totals plus uncategorised counts equal the counted total |
| CategoryAnalyzer.MentionsConserved | category_analyzer.py:32-144 | area totals plus uncategorised counts equal the number of mentions |
| CategoryAnalyzer.RankAreasIsRanking | category_analyzer.py:149 | `sorted_areas` holds every area once, by descending total, ties in declared order |
| CategoryAnalyzer.Significant | category_analyzer.py:182 | no more significant names than ranked areas |
| CategoryAnalyzer.SignificantOnlyEnough | category_analyzer.py:182 | every significant area has at least 20 mentions |
| CategoryAnalyzer.EnoughIsSignificant | category_analyzer.py:182 | every area with at least 20 mentions is significant |
| CategoryAnalyzer.Structure | category_analyzer.py:184-190 | the structure starts with the significant areas in rank order, and "Emerging Technologies & Others" is appended after them exactly when the uncategorised total is at least 15 |
| CategoryAnalyzer.StructureBounds | category_analyzer.py:184-195 | with six areas at most six are significant, so the `<= 6` branch always applies; at most seven sections are suggested, each getting at least five pages |
| CategoryAnalyzer.PagesPerSection | category_analyzer.py:193-195 | `35 // k`: the most whole pages each of `k` sections can get |
| CategoryAnalyzer.PagesAtLeastFive | category_analyzer.py:193-195 | one to seven sections get at least five pages each |
| CategoryAnalyzer.AnalyzeWith | category_analyzer.py:8-229 | for at most six areas: `None` for an unreadable or empty table, no mentions, or an empty structure; otherwise the counter, the area totals and lists and the structure |
| CategoryAnalyzer.AnalyzeCategories | category_analyzer.py:8-229 | the analysis over the six declared research areas |
| CreateReferences.FieldText | create_references.py:40-46 | a missing cell reads as `''` |
| CreateReferences.BuildProcessedData | create_references.py:37-47 | the map-building loop yields `ProcessedData` |
| CreateReferences.ProcessedDataKeys | create_references.py:37-38 | a filename is a key exactly when some row carries it |
| CreateReferences.LastRowWins | create_references.py:37-47 | the last row carrying a filename decides its entry |
| CreateReferences.Lookup | create_references.py:66-67 | the entry of a filename exactly when it is a key |
| CreateReferences.TitlePlaceholderClean | create_references.py:73-85 | "Title not extracted" holds no "error" |
| CreateReferences.UnmatchedReference | create_references.py:72-90 | a PDF without an entry shows the placeholder title (unless it is its filename) and no categories, abstract or method |
| CreateReferences.StoredTitleShown | create_references.py:68-86 | for any stored title, the placeholder text included: it is shown exactly when non-empty, not the filename and free of "error"; an empty one or the filename shows the placeholder |
| CreateReferences.AbstractShown | create_references.py:69-98 | an abstract is shown exactly when non-empty, not the placeholder and free of "error", cut to 200 characters plus `"..."` |
| CreateReferences.MethodShown | create_references.py:70-105 | likewise for the method, at 150 characters |
| CreateReferences.CategoriesShown | create_references.py:71-90 | the categories line shows the stored value exactly when it is non-empty and not the placeholder |
| CreateReferences.Render | create_references.py:78-107 | a block is the header, the rule of 60 dashes, the filename line, the optional lines and a blank line |
| CreateReferences.OneHeaderPerBlock | create_references.py:78-107 | every block holds exactly one header line |
| CreateReferences.OneHeaderPerPdf | create_references.py:62-107 | the blocks hold one header line per PDF |
| CreateReferences.PreambleHasNoHeader | create_references.py:52-60 | no preamble line, `REFERENCE FORMATS:` included, is a block header |
| CreateReferences.ReferencesFileHeaders | create_references.py:52-107 | of the lines the references file writes, exactly one per PDF is a block header |
| CreateReferences.BlockNumbering | create_references.py:62-78 | block `k` is headed `REFERENCE` with the 3-digit number `k + 1`, which reads back as `k + 1` |
| CreateReferences.WriteReferences | create_references.py:52-107 | the writing loop yields the preamble followed by every PDF's block, in file-list order, with one header line per PDF |
| CreateReferences.NumberedAgreesWithBlock | create_references.py:144-153 | for any stored title, a numbered line shows it exactly when the reference block's title line shows it |
| CreateReferences.UnmatchedNumbered | create_references.py:152-153 | an unmatched PDF's numbered line shows its filename |
| CreateReferences.WriteNumbered | create_references.py:140-153 | one numbered line per PDF, `[` and the 3-digit number `k + 1`, after the preamble |
| CreateReferences.CreateReferencesFile | create_references.py:9-157 | `None` and nothing written for a missing directory or no PDFs; otherwise the count of PDFs and both files as above |
| ExcelAnalyzer.Matching | excel_analyzer.py:73-75 | one indicator flags at most every row |
| ExcelAnalyzer.CountErrors | excel_analyzer.py:70-75 | the indicators loop yields `ErrorTally` |
| ExcelAnalyzer.ErrorTallyNoRows | excel_analyzer.py:70-75 | an empty table has no error |
| ExcelAnalyzer.ErrorTallyAddRow | excel_analyzer.py:72-75 | one more row adds the number of indicators it matches |
| ExcelAnalyzer.ErrorTallyByRow | excel_analyzer.py:72-75 | the tally counts each row once per indicator it matches |
| ExcelAnalyzer.ErrorTallyAtMost | excel_analyzer.py:72-75 | the tally is at most rows times indicators |
| ExcelAnalyzer.ErrorTallyAtLeast | excel_analyzer.py:72-75 | the tally is at least what the first indicator flags |
| ExcelAnalyzer.SuccessCount | excel_analyzer.py:77 | the printed success count is negative exactly when the tally exceeds the rows |
| ExcelAnalyzer.JsonFailureHasFailed | excel_analyzer.py:64-69 | "JSON parsing failed" also matches "Failed" |
| ExcelAnalyzer.JsonFailureLacksProcessing | excel_analyzer.py:64-69 | "JSON parsing failed: Error" does not match "processing failed" |
| ExcelAnalyzer.JsonFailureHitsThree | excel_analyzer.py:64-75 | a summary "JSON parsing failed: Error" counts three times |
| ExcelAnalyzer.NegativeSuccessCount | excel_analyzer.py:72-77 | a table of that one row reports a success count of -2 |
| ExcelAnalyzer.Present | excel_analyzer.py:51 | `dropna()` keeps at most every row |
| ExcelAnalyzer.PresentAll | excel_analyzer.py:51 | with no missing cell every value is present, in place |
| ExcelAnalyzer.PresentFromRows | excel_analyzer.py:51 | every present value comes from some row |
| ExcelAnalyzer.SampleColumn | excel_analyzer.py:49-58 | `min(3, present)` samples, each the value cut to 100 characters plus `"..."` |
| ExcelAnalyzer.AnalyzeWith | excel_analyzer.py:9-90 | `None` exactly for an unreadable table or a non-empty one with no summary text at all (the `.str` accessor raises); otherwise, a table with no rows included, the row total, the counter and number of the unnormalised mentions, the samples, the error tally and the success count |
| ExcelAnalyzer.EmptyWorkbookAudit | excel_analyzer.py:19-79 | a workbook with a header and no data rows is audited as zero papers, no category, no sample, no error and a success count of 0 |
| ExcelAnalyzer.AnalyzeExcelData | excel_analyzer.py:9-90 | the same figures with the four indicators, `None` exactly in the same cases, at most four errors per row, and the all-zero audit for a workbook with no data rows |

## Left out

- The PDF libraries (PyMuPDF, pdfplumber, PDFMiner, PyPDF2, pytesseract,
  PIL): foreign calls; each strategy's answer for a document is an input of
  the model.
- `models.py` and `readFiles.py`, and the metadata service itself: client
  construction and network requests. The service is a function from attempt
  number to outcome; the request schema (pdf_processor.py:129-155) is a
  constant without behaviour.
- `asyncio.gather` and `asyncio.sleep`: the gather is an order-preserving
  map and each sleep is an entry of the batch log.
- pandas Excel and CSV input and output, `json.dump`, file writes, directory
  globbing and `mkdir`: the workbook is a sequence of rows, the files are
  their lines or names, and the glob's file order is an input.
- `eval` of stored category strings and `json.loads` of replies: parser
  functions given as parameters. An `eval` result that is not a list, or
  items that are not strings, are not modelled; the parser yields the items'
  printed forms.
- Percentages, averages, the success rate and progress percentages:
  floating point. The division by `len(df)` in report_categorizer.py and
  category_analyzer.py is kept only for the error it raises on an empty
  table; the success rate in excel_analyzer.py divides a numpy integer, so
  an empty table gives `nan` there and no error.
- `datetime.now()`: a string parameter.
- Printing and emoji output, prompt and instruction text bodies, the usage
  instructions at the end of the references file (create_references.py:110-133),
  and the unused plotting imports.
- The duplicated `if __name__` blocks and the script entry points. The entry
  point of create_references.py (lines 174-177) holds two `else:` clauses in
  a row, a syntax error: the module as written does not compile, so neither
  its entry point nor `create_references_file` can be run or imported; only
  the logic of its functions is modelled.
- Text.Lower: ASCII letters only; Python lowers every Unicode letter.
- Pages whose library text is `None` are read as empty text.
- The "No text extracted" branch of `process_single_pdf`
  (pdf_processor.py:215-216) cannot be reached, since the cascade only returns
  text that passes its gate; it has no path in the model.
- The branch for more than six significant areas
  (category_analyzer.py:188-190) cannot be reached with six areas; it is not
  modelled.
- In the batch run each task runs the `process_single_pdf` model through
  `ProcessWith(parse)`, with the reply parser a parameter.
- Numeric cells of the re-read table are read as their text; a non-string
  categories value is assumed to be truthy and not to start with `[`, and a
  paper's stored categories are the items' printed forms.
- `most_common(10)` and `most_common(30)` listings and the column printout of
  excel_analyzer.py: ordering for display only; the counter itself is modelled.
- `str.contains` in excel_analyzer.py is a regular-expression search; the
  four indicators are plain words, so it is modelled as a substring search.
- The references file is modelled as the list of the lines it writes, in
  order: each written line is one element, and newlines inside a stored
  title, abstract, method or categories value are not split, so header
  counts are of written lines, not of the file's physical lines.
- `analyze_excel_data` returns the data frame itself; the model returns the
  figures the function prints instead.
- Records are values: `process_single_pdf` and `save_to_excel` set
  `filename` and `processed_at` on the caller's dict in place, where the model
  returns the updated record instead; no caller reads the dict afterwards.
- A table with no summary text at all is taken to fail in excel_analyzer.py
  because pandas then infers a numeric column for it; the model does not
  capture pandas' type inference beyond that case (empty strings written to
  the workbook are read back as missing cells).
