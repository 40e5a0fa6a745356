// `categorize_papers_for_report` and `generate_report_prompts`: each usable
// row of the summary table goes to one of four report sections by keyword
// matching, then each non-empty section gets its summaries joined and a
// prompt file named after its key.

module ReportCategorizer {
  import opened Wrappers
  import opened Text
  import opened Sheet

  /** One of the report's sections, with the keywords that attract papers. */
  datatype Category = Category(key: string, name: string, keywords: seq<string>, description: string)

  /** The section keys. */
  const SchedulingKey: string := "1_Scheduling_Optimization"
  const AlgorithmsKey: string := "2_Algorithms_Methods"
  const AiKey: string := "3_AI_MachineLearning"
  const IndustryKey: string := "4_Industry_Applications"

  /** The four sections, in the dictionary's (and so the scoring's) order. */
  const Categories: seq<Category> := [
    Category(
      SchedulingKey,
      "Scheduling & Optimization Systems",
      ["scheduling", "job shop", "flexible", "makespan", "optimization", "multi-objective",
       "flowshop", "batch", "production", "workflow", "resource allocation", "combinatorial"],
      "Research focused on scheduling algorithms, job shop optimization, and production planning systems"),
    Category(
      AlgorithmsKey,
      "Metaheuristic Algorithms & Computational Methods",
      ["algorithm", "genetic", "metaheuristic", "ant colony", "particle swarm", "tabu search",
       "simulated annealing", "heuristic", "evolutionary", "differential evolution", "local search",
       "variable neighborhood"],
      "Studies on metaheuristic algorithms, optimization techniques, and computational methodologies"),
    Category(
      AiKey,
      "Artificial Intelligence & Machine Learning",
      ["deep learning", "reinforcement learning", "neural", "ai", "artificial intelligence",
       "machine learning", "deep reinforcement", "convolutional", "lstm", "neural networks"],
      "Research incorporating AI, machine learning, and deep learning approaches"),
    Category(
      IndustryKey,
      "Industry Applications & Emerging Technologies",
      ["manufacturing", "industry", "automation", "supply chain", "logistics", "sustainability",
       "energy", "maintenance", "quality", "performance", "benchmark", "evaluation",
       "mathematical programming", "constraint"],
      "Industrial applications, performance evaluation, and emerging technological approaches")
  ]

  const CategoryCount: nat := 4

  /** Papers nobody matches go to `4_Industry_Applications`. */
  const DefaultCategory: nat := 3

  const PaperSeparator: string := "\n\n---PAPER SEPARATOR---\n\n"

  // ---------------------------------------------------------------- rows

  /** A row is left out when its summary is missing or reports an error. */
  predicate Skipped(row: SheetRow) {
    || row.summary.NaN?
    || Contains(Lower(CellStr(row.summary)), "error")
    || Contains(Lower(CellStr(row.summary)), "failed")
  }

  /** The paper's category list: `[]` for a missing cell, the parsed list for
      a `"["`-prefixed string, the raw string when parsing raised, and a
      singleton for anything else. A non-string value's `str()` never parses,
      so it always ends up as the singleton of its `str()`. */
  function PaperCategories(c: CategoryCell, parse: ListParser): (cats: seq<string>)
    ensures c.CatNaN? ==> cats == []
    ensures c.CatOther? ==> cats == [c.repr]
    ensures c.CatStr? ==> cats == Mentions(c, parse)
  {
    match c
    case CatNaN => []
    case CatStr(s) =>
      if StartsWith(s, "[") then
        match parse(s)
        case Some(items) => items
        case None => [s]
      else [s]
    case CatOther(r) => [r]
  }

  /** `[str(cat).lower() for cat in paper_categories]`. */
  function LowerAll(cats: seq<string>): (lowered: seq<string>)
    ensures |lowered| == |cats|
    ensures forall i :: 0 <= i < |cats| ==> lowered[i] == Lower(cats[i])
  {
    seq(|cats|, i requires 0 <= i < |cats| => Lower(cats[i]))
  }

  /** A paper as it is appended to its section. */
  datatype Paper = Paper(
    filename: Cell,
    title: Cell,
    abstractText: Cell,
    methodText: Cell,
    objectives: Cell,
    summary: Cell,
    categories: seq<string>,
    processedAt: Cell)

  function PaperOf(row: SheetRow, parse: ListParser): (p: Paper)
    ensures p.filename == row.filename && p.summary == row.summary
    ensures p.categories == PaperCategories(row.categories, parse)
  {
    Paper(row.filename, row.title, row.abstractText, row.methodText, row.objectives,
          row.summary, PaperCategories(row.categories, parse), row.processedAt)
  }

  // ---------------------------------------------------------------- scoring

  /** Some paper category holds `keyword` as a substring. */
  predicate Hit(keyword: string, cats: seq<string>) {
    exists i :: 0 <= i < |cats| && Contains(cats[i], keyword)
  }

  /** Phase one: how many of the keywords occur in some paper category; each
      keyword counts once. */
  function CategoryScore(keywords: seq<string>, cats: seq<string>): (n: nat)
    ensures n <= |keywords|
  {
    if keywords == [] then 0
    else
      CategoryScore(keywords[..|keywords| - 1], cats)
      + (if Hit(keywords[|keywords| - 1], cats) then 1 else 0)
  }

  /** Phase two: how many of the keywords occur in the searched text. */
  function TextScore(keywords: seq<string>, text: string): (n: nat)
    ensures n <= |keywords|
  {
    if keywords == [] then 0
    else
      TextScore(keywords[..|keywords| - 1], text)
      + (if Contains(text, keywords[|keywords| - 1]) then 1 else 0)
  }


  /** The running `(max_matches, best_match)` after scanning `scores` in
      order, starting from `(0, None)`: a category replaces the best only with
      a strictly higher score. */
  function Best(scores: seq<nat>): (r: (nat, Option<nat>))
    ensures r.1.None? <==> r.0 == 0
    ensures r.1.None? ==> forall t :: 0 <= t < |scores| ==> scores[t] == 0
    ensures r.1.Some? ==> r.1.value < |scores| && scores[r.1.value] == r.0
    ensures r.1.Some? ==> forall t :: 0 <= t < |scores| ==> scores[t] <= r.0
    ensures r.1.Some? ==> forall t :: 0 <= t < r.1.value ==> scores[t] < r.0
  {
    if scores == [] then (0, None)
    else
      var n := |scores| - 1;
      var prev := Best(scores[..n]);
      assert forall t :: 0 <= t < n ==> scores[t] == scores[..n][t];
      if scores[n] > prev.0 then (scores[n], Some(n)) else prev
  }

  /** Phase one's score of every section of `table`. */
  function CategoryScores(table: seq<Category>, cats: seq<string>): (scores: seq<nat>)
    ensures |scores| == |table|
    ensures forall k :: 0 <= k < |table| ==> scores[k] == CategoryScore(table[k].keywords, cats)
  {
    seq(|table|, k requires 0 <= k < |table| => CategoryScore(table[k].keywords, cats))
  }

  /** Phase two's score of every section of `table`. */
  function TextScores(table: seq<Category>, text: string): (scores: seq<nat>)
    ensures |scores| == |table|
    ensures forall k :: 0 <= k < |table| ==> scores[k] == TextScore(table[k].keywords, text)
  {
    seq(|table|, k requires 0 <= k < |table| => TextScore(table[k].keywords, text))
  }

  /** The lowercased `"title abstract method"` that phase two searches. */
  function SearchText(row: SheetRow): string {
    Lower(CellStr(row.title) + " " + CellStr(row.abstractText) + " " + CellStr(row.methodText))
  }

  /** The section a usable row goes to: phase one's first strict maximum if
      it is positive, else phase two's, else the default. */
  function Assigned(table: seq<Category>, row: SheetRow, parse: ListParser): (k: nat)
    requires |table| == CategoryCount
    ensures k < |table|
  {
    var first := Best(CategoryScores(table, LowerAll(PaperCategories(row.categories, parse))));
    if first.0 > 0 then first.1.value
    else
      var second := Best(TextScores(table, SearchText(row)));
      if second.0 > 0 then second.1.value else DefaultCategory
  }

  /** The winner of a phase is the first section with the highest score, the
      text is only searched when no paper category matched, and a paper that
      matches nothing goes to the default section. */
  lemma AssignedIsFirstBest(table: seq<Category>, row: SheetRow, parse: ListParser)
    requires |table| == CategoryCount
    ensures var s1 := CategoryScores(table, LowerAll(PaperCategories(row.categories, parse)));
      var s2 := TextScores(table, SearchText(row));
      var k := Assigned(table, row, parse);
      && ((exists t :: 0 <= t < |table| && s1[t] > 0) ==>
            (forall t :: 0 <= t < |table| ==> s1[t] <= s1[k])
            && (forall t :: 0 <= t < k ==> s1[t] < s1[k]))
      && ((forall t :: 0 <= t < |table| ==> s1[t] == 0)
            && (exists t :: 0 <= t < |table| && s2[t] > 0) ==>
            (forall t :: 0 <= t < |table| ==> s2[t] <= s2[k])
            && (forall t :: 0 <= t < k ==> s2[t] < s2[k]))
      && ((forall t :: 0 <= t < |table| ==> s1[t] == 0 && s2[t] == 0) ==> k == DefaultCategory)
  {
  }

  /** Matching is by substring, not by word: the keyword `"ai"` is found in
      the category `"supply chain"`, which so counts for the AI section. */
  lemma AiMatchesSupplyChain()
    ensures Hit("ai", ["supply chain"])
    ensures CategoryScore(Categories[2].keywords, ["supply chain"]) >= 1
  {
    var cats := ["supply chain"];
    assert cats[0][9..11] == "ai";
    assert OccursAt(cats[0], "ai", 9);
    assert Contains(cats[0], "ai");
    var kws := Categories[2].keywords;
    assert kws[3] == "ai";
    HitScores(kws, cats, 3);
  }

  /** A keyword that some category holds makes the score positive. */
  lemma HitScores(keywords: seq<string>, cats: seq<string>, n: nat)
    requires n < |keywords| && Hit(keywords[n], cats)
    ensures CategoryScore(keywords, cats) >= 1
  {
    var pre := keywords[..n + 1];
    assert pre[..n] == keywords[..n] && pre[n] == keywords[n];
    assert CategoryScore(pre, cats) >= 1;
    CategoryScoreMonotone(keywords, cats, n + 1);
  }

  /** A longer keyword list never scores lower than its prefix. */
  lemma {:induction false} CategoryScoreMonotone(keywords: seq<string>, cats: seq<string>, n: nat)
    requires n <= |keywords|
    ensures CategoryScore(keywords[..n], cats) <= CategoryScore(keywords, cats)
    decreases |keywords| - n
  {
    if n < |keywords| {
      CategoryScoreMonotone(keywords, cats, n + 1);
      assert keywords[..n + 1][..n] == keywords[..n];
    } else {
      assert keywords[..n] == keywords;
    }
  }

  /** Phase one for one section: for each keyword, scan the paper
      categories and `break` at the first that holds it. */
  method CountKeywordHits(keywords: seq<string>, cats: seq<string>) returns (matches: nat)
    ensures matches == CategoryScore(keywords, cats)
  {
    matches := 0;
    var i := 0;
    while i < |keywords|
      invariant 0 <= i <= |keywords|
      invariant matches == CategoryScore(keywords[..i], cats)
    {
      assert keywords[..i + 1][..i] == keywords[..i];
      var keyword := keywords[i];
      var j := 0;
      ghost var found := false;
      while j < |cats|
        invariant 0 <= j <= |cats|
        invariant !found
        invariant forall t :: 0 <= t < j ==> !Contains(cats[t], keyword)
        invariant matches == CategoryScore(keywords[..i], cats)
      {
        if Contains(cats[j], keyword) {
          matches := matches + 1;
          found := true;
          break;
        }
        j := j + 1;
      }
      assert found <==> Hit(keyword, cats);
      i := i + 1;
    }
    assert keywords[..i] == keywords;
  }

  /** Phase two for one section: each keyword found in the text counts. */
  method CountKeywordsInText(keywords: seq<string>, text: string) returns (matches: nat)
    ensures matches == TextScore(keywords, text)
  {
    matches := 0;
    var i := 0;
    while i < |keywords|
      invariant 0 <= i <= |keywords|
      invariant matches == TextScore(keywords[..i], text)
    {
      assert keywords[..i + 1][..i] == keywords[..i];
      if Contains(text, keywords[i]) {
        matches := matches + 1;
      }
      i := i + 1;
    }
    assert keywords[..i] == keywords;
  }

  /** The loop over the sections that keeps `max_matches` and `best_match`,
      from `(0, None)`. */
  method PickBest(scores: seq<nat>) returns (maxMatches: nat, best: Option<nat>)
    ensures (maxMatches, best) == Best(scores)
  {
    maxMatches, best := 0, None;
    var k := 0;
    while k < |scores|
      invariant 0 <= k <= |scores|
      invariant (maxMatches, best) == Best(scores[..k])
    {
      assert scores[..k + 1][..k] == scores[..k];
      if scores[k] > maxMatches {
        maxMatches := scores[k];
        best := Some(k);
      }
      k := k + 1;
    }
    assert scores[..k] == scores;
  }

  /** Phase one's loop over the sections. */
  method ScoreCategories(table: seq<Category>, cats: seq<string>) returns (scores: seq<nat>)
    ensures scores == CategoryScores(table, cats)
  {
    scores := [];
    var c := 0;
    while c < |table|
      invariant 0 <= c <= |table|
      invariant |scores| == c
      invariant forall t :: 0 <= t < c ==> scores[t] == CategoryScore(table[t].keywords, cats)
    {
      var matches := CountKeywordHits(table[c].keywords, cats);
      scores := scores + [matches];
      c := c + 1;
    }
  }

  /** Phase two's loop over the sections. */
  method ScoreText(table: seq<Category>, text: string) returns (scores: seq<nat>)
    ensures scores == TextScores(table, text)
  {
    scores := [];
    var c := 0;
    while c < |table|
      invariant 0 <= c <= |table|
      invariant |scores| == c
      invariant forall t :: 0 <= t < c ==> scores[t] == TextScore(table[t].keywords, text)
    {
      var matches := CountKeywordsInText(table[c].keywords, text);
      scores := scores + [matches];
      c := c + 1;
    }
  }

  /** Both phases for one usable row; the section it is appended to. Phase
      two starts from phase one's `(0, None)`, so it picks as from scratch. */
  method CategorizeRow(table: seq<Category>, row: SheetRow, parse: ListParser) returns (k: nat)
    requires |table| == CategoryCount
    ensures k == Assigned(table, row, parse)
  {
    var paperCategories: seq<string>;
    match row.categories {
      case CatNaN =>
        paperCategories := [];
      case CatStr(s) =>
        if StartsWith(s, "[") {
          var parsed := parse(s);
          paperCategories := if parsed.Some? then parsed.value else [s];
        } else {
          paperCategories := [s];
        }
      case CatOther(r) =>
        paperCategories := [r];
    }
    var paperCatsLower := LowerAll(paperCategories);
    var scores := ScoreCategories(table, paperCatsLower);
    var maxMatches, bestMatch := PickBest(scores);
    if maxMatches == 0 {
      var textToSearch := SearchText(row);
      var textScores := ScoreText(table, textToSearch);
      maxMatches, bestMatch := PickBest(textScores);
    }
    if bestMatch.Some? && maxMatches > 0 {
      k := bestMatch.value;
    } else {
      k := DefaultCategory;
    }
  }

  // ---------------------------------------------------------------- sections

  /** The papers of section `k`, in row order. */
  function Section(table: seq<Category>, rows: seq<SheetRow>, parse: ListParser, k: nat): (papers: seq<Paper>)
    requires |table| == CategoryCount
    ensures |papers| <= |rows|
  {
    if rows == [] then []
    else
      var row := rows[|rows| - 1];
      Section(table, rows[..|rows| - 1], parse, k)
      + (if !Skipped(row) && Assigned(table, row, parse) == k then [PaperOf(row, parse)] else [])
  }

  /** Every section of `table`. */
  function Sections(table: seq<Category>, rows: seq<SheetRow>, parse: ListParser): (sections: seq<seq<Paper>>)
    requires |table| == CategoryCount
    ensures |sections| == |table|
    ensures forall k :: 0 <= k < |table| ==> sections[k] == Section(table, rows, parse, k)
  {
    seq(|table|, k requires 0 <= k < |table| => Section(table, rows, parse, k))
  }

  /** How many rows are not skipped. */
  function UsableCount(rows: seq<SheetRow>): (n: nat)
    ensures n <= |rows|
  {
    if rows == [] then 0
    else UsableCount(rows[..|rows| - 1]) + (if Skipped(rows[|rows| - 1]) then 0 else 1)
  }

  /** Sum of the section sizes from section `k` on. */
  function SizesFrom(sections: seq<seq<Paper>>, k: nat): nat
    requires k <= |sections|
    decreases |sections| - k
  {
    if k == |sections| then 0 else |sections[k]| + SizesFrom(sections, k + 1)
  }

  /** `total_papers`: the sizes of all sections added up. */
  function TotalPapers(sections: seq<seq<Paper>>): nat {
    SizesFrom(sections, 0)
  }

  /** One more row adds its paper to its own section and to no other. */
  lemma SectionStep(table: seq<Category>, rows: seq<SheetRow>, parse: ListParser, i: nat)
    requires |table| == CategoryCount && i < |rows|
    ensures forall k :: (Section(table, rows[..i + 1], parse, k) ==
      Section(table, rows[..i], parse, k)
      + (if !Skipped(rows[i]) && Assigned(table, rows[i], parse) == k then [PaperOf(rows[i], parse)] else []))
  {
    assert rows[..i + 1][..i] == rows[..i];
  }

  /** Adding one paper to section `j` adds one to the sizes of every range
      of sections that holds `j`. */
  lemma {:induction false} SizesFromAddOne(a: seq<seq<Paper>>, b: seq<seq<Paper>>, j: int, p: Paper, k: nat)
    requires |a| == |b| && k <= |a|
    requires forall t :: 0 <= t < |a| ==> b[t] == a[t] + (if t == j then [p] else [])
    ensures SizesFrom(b, k) == SizesFrom(a, k) + (if k <= j < |a| then 1 else 0)
    decreases |a| - k
  {
    if k < |a| {
      SizesFromAddOne(a, b, j, p, k + 1);
    }
  }

  lemma {:induction false} SizesFromEmpty(a: seq<seq<Paper>>, k: nat)
    requires k <= |a|
    requires forall t :: 0 <= t < |a| ==> a[t] == []
    ensures SizesFrom(a, k) == 0
    decreases |a| - k
  {
    if k < |a| {
      SizesFromEmpty(a, k + 1);
    }
  }

  /** Every usable row lands in exactly one section: `total_papers` is the
      number of rows that were not skipped. */
  lemma {:induction false} TotalIsUsableRows(table: seq<Category>, rows: seq<SheetRow>, parse: ListParser)
    requires |table| == CategoryCount
    ensures TotalPapers(Sections(table, rows, parse)) == UsableCount(rows)
  {
    if rows == [] {
      SizesFromEmpty(Sections(table, rows, parse), 0);
    } else {
      var n := |rows| - 1;
      assert rows[..n + 1] == rows;
      TotalIsUsableRows(table, rows[..n], parse);
      SectionStep(table, rows, parse, n);
      var j := if Skipped(rows[n]) then -1 else Assigned(table, rows[n], parse);
      var a, b, p := Sections(table, rows[..n], parse), Sections(table, rows, parse), PaperOf(rows[n], parse);
      forall t | 0 <= t < |a|
        ensures b[t] == a[t] + (if t == j then [p] else [])
      {
        assert b[t] == Section(table, rows[..n + 1], parse, t);
      }
      SizesFromAddOne(a, b, j, p, 0);
    }
  }

  /** The sections after row `i`, given the sections before it. */
  lemma SectionsStep(table: seq<Category>, rows: seq<SheetRow>, parse: ListParser, i: nat,
                     before: seq<seq<Paper>>, after: seq<seq<Paper>>)
    requires |table| == CategoryCount && i < |rows|
    requires |before| == |table|
    requires forall k :: 0 <= k < |table| ==> before[k] == Section(table, rows[..i], parse, k)
    requires Skipped(rows[i]) ==> after == before
    requires !Skipped(rows[i]) ==>
      var k := Assigned(table, rows[i], parse);
      after == before[k := before[k] + [PaperOf(rows[i], parse)]]
    ensures |after| == |table|
    ensures forall k :: 0 <= k < |table| ==> after[k] == Section(table, rows[..i + 1], parse, k)
  {
    SectionStep(table, rows, parse, i);
  }

  /** The categorising loop: skip unusable rows, append every other row's
      paper to its section. */
  method CategorizePapers(table: seq<Category>, rows: seq<SheetRow>, parse: ListParser)
    returns (sections: seq<seq<Paper>>)
    requires |table| == CategoryCount
    ensures sections == Sections(table, rows, parse)
  {
    sections := [[], [], [], []];
    var i := 0;
    while i < |rows|
      invariant 0 <= i <= |rows|
      invariant |sections| == |table|
      invariant forall k :: 0 <= k < |table| ==> sections[k] == Section(table, rows[..i], parse, k)
    {
      var row := rows[i];
      ghost var before := sections;
      if !Skipped(row) {
        var k := CategorizeRow(table, row, parse);
        sections := sections[k := sections[k] + [PaperOf(row, parse)]];
      }
      SectionsStep(table, rows, parse, i, before, sections);
      i := i + 1;
    }
    assert rows[..i] == rows;
  }

  // ---------------------------------------------------------------- summaries

  /** A section's entry in `category_summaries`. */
  datatype CategorySummary = CategorySummary(
    key: string, name: string, description: string, paperCount: nat, summaryFile: string)

  /** `str(output_dir / f"{cat_key}_summaries.txt")`. */
  function SummaryFile(key: string): string {
    "categorized_papers/" + key + "_summaries.txt"
  }

  /** A summary is truthy unless it is the empty string. */
  predicate Truthy(c: Cell) {
    c != Str("")
  }

  /** `[paper["summary"] for paper in papers if paper["summary"]]`. A missing
      summary never reaches a section, so only string summaries are kept. */
  function TruthySummaries(papers: seq<Paper>): (summaries: seq<string>)
    ensures |summaries| <= |papers|
    ensures forall s :: s in summaries ==> s != ""
  {
    if papers == [] then []
    else
      var p := papers[|papers| - 1];
      TruthySummaries(papers[..|papers| - 1])
      + (if Truthy(p.summary) && p.summary.Str? then [p.summary.text] else [])
  }

  /** The section's summaries joined by the paper separator. */
  function CombinedSummary(papers: seq<Paper>): string {
    Join(TruthySummaries(papers), PaperSeparator)
  }

  /** Joining non-empty summaries gives the empty text only when there are
      none. */
  lemma CombinedSummaryEmpty(papers: seq<Paper>)
    ensures CombinedSummary(papers) == "" <==> TruthySummaries(papers) == []
  {
    var s := TruthySummaries(papers);
    if s != [] {
      assert s[0] in s;
      JoinNonEmpty(s, PaperSeparator);
    }
  }

  lemma {:induction false} JoinNonEmpty(parts: seq<string>, sep: string)
    requires |parts| >= 1 && parts[0] != ""
    ensures Join(parts, sep) != ""
  {
    if |parts| > 1 {
      assert |Join(parts, sep)| >= |parts[0]|;
    }
  }

  /** The entry of section `k` in `category_summaries`. */
  function SummaryOf(table: seq<Category>, sections: seq<seq<Paper>>, k: nat): CategorySummary
    requires k < |table| && |sections| == |table|
  {
    var c := table[k];
    CategorySummary(c.key, c.name, c.description, |sections[k]|, SummaryFile(c.key))
  }

  /** The entries of `category_summaries`, for the non-empty sections from
      `k` on, in section order. */
  function SummariesFrom(table: seq<Category>, sections: seq<seq<Paper>>, k: nat): (s: seq<CategorySummary>)
    requires |sections| == |table| && k <= |table|
    ensures |s| <= |table| - k
    ensures forall e :: e in s ==> e.paperCount > 0
    decreases |table| - k
  {
    if k == |table| then []
    else
      var rest := SummariesFrom(table, sections, k + 1);
      if sections[k] == [] then rest else [SummaryOf(table, sections, k)] + rest
  }

  function SumPaperCounts(s: seq<CategorySummary>): nat {
    if s == [] then 0 else s[0].paperCount + SumPaperCounts(s[1..])
  }

  /** Leaving out the empty sections loses no paper. */
  lemma {:induction false} SummariesCountEveryPaper(table: seq<Category>, sections: seq<seq<Paper>>, k: nat)
    requires |sections| == |table| && k <= |table|
    ensures SumPaperCounts(SummariesFrom(table, sections, k)) == SizesFrom(sections, k)
    decreases |table| - k
  {
    if k < |table| {
      SummariesCountEveryPaper(table, sections, k + 1);
      var rest := SummariesFrom(table, sections, k + 1);
      if sections[k] != [] {
        assert ([SummaryOf(table, sections, k)] + rest)[1..] == rest;
      }
    }
  }

  /** Every entry carries the key of a non-empty section. */
  lemma {:induction false} SummaryKeys(table: seq<Category>, sections: seq<seq<Paper>>, k: nat, e: CategorySummary)
    requires |sections| == |table| && k <= |table|
    requires e in SummariesFrom(table, sections, k)
    ensures exists t :: k <= t < |table| && sections[t] != [] && e == SummaryOf(table, sections, t)
    decreases |table| - k
  {
    if k < |table| {
      var rest := SummariesFrom(table, sections, k + 1);
      if e in rest {
        SummaryKeys(table, sections, k + 1, e);
      } else {
        assert e == SummaryOf(table, sections, k);
      }
    }
  }

  /** The base prompt's total, `sum(cat['paper_count'] ...)`, is the number
      of usable rows. */
  lemma BaseTotalIsUsableRows(table: seq<Category>, rows: seq<SheetRow>, parse: ListParser)
    requires |table| == CategoryCount
    ensures SumPaperCounts(SummariesFrom(table, Sections(table, rows, parse), 0)) == UsableCount(rows)
  {
    SummariesCountEveryPaper(table, Sections(table, rows, parse), 0);
    TotalIsUsableRows(table, rows, parse);
  }

  /** The files saved for one section: its JSON, its workbook and its
      joined summaries. */
  function SectionFiles(key: string): seq<string> {
    [key + ".json", key + ".xlsx", key + "_summaries.txt"]
  }

  /** The joined summaries of the non-empty sections from `k` on, in step
      with `SummariesFrom`. */
  function CombinedFrom(table: seq<Category>, sections: seq<seq<Paper>>, k: nat): (c: seq<string>)
    requires |sections| == |table| && k <= |table|
    ensures |c| == |SummariesFrom(table, sections, k)|
    decreases |table| - k
  {
    if k == |table| then []
    else
      var rest := CombinedFrom(table, sections, k + 1);
      if sections[k] == [] then rest else [CombinedSummary(sections[k])] + rest
  }

  /** The files of every entry, in order. */
  function FilesOf(summaries: seq<CategorySummary>): (files: seq<string>)
    ensures |files| == 3 * |summaries|
  {
    if summaries == [] then [] else SectionFiles(summaries[0].key) + FilesOf(summaries[1..])
  }

  /** The saving loop: for each non-empty section, in section order, its
      three files, its summary entry and its joined summaries. */
  method SaveCategorizedPapers(table: seq<Category>, sections: seq<seq<Paper>>)
    returns (summaries: seq<CategorySummary>, combined: seq<string>, files: seq<string>)
    requires |sections| == |table|
    ensures summaries == SummariesFrom(table, sections, 0)
    ensures combined == CombinedFrom(table, sections, 0)
    ensures files == FilesOf(summaries)
  {
    summaries, combined, files := [], [], [];
    var k := 0;
    while k < |table|
      invariant 0 <= k <= |table|
      invariant summaries + SummariesFrom(table, sections, k) == SummariesFrom(table, sections, 0)
      invariant combined + CombinedFrom(table, sections, k) == CombinedFrom(table, sections, 0)
      invariant files == FilesOf(summaries)
    {
      if sections[k] != [] {
        var c := table[k];
        var combinedSummary := Join(TruthySummaries(sections[k]), PaperSeparator);
        var entry := CategorySummary(c.key, c.name, c.description, |sections[k]|, SummaryFile(c.key));
        assert summaries + [entry] + SummariesFrom(table, sections, k + 1)
            == summaries + SummariesFrom(table, sections, k);
        assert combined + [combinedSummary] + CombinedFrom(table, sections, k + 1)
            == combined + CombinedFrom(table, sections, k);
        FilesOfSnoc(summaries, entry);
        summaries := summaries + [entry];
        combined := combined + [combinedSummary];
        files := files + SectionFiles(c.key);
      }
      k := k + 1;
    }
    assert summaries + [] == summaries && combined + [] == combined;
  }

  /** The files of one more entry come after those of the others. */
  lemma {:induction false} FilesOfSnoc(summaries: seq<CategorySummary>, e: CategorySummary)
    ensures FilesOf(summaries + [e]) == FilesOf(summaries) + SectionFiles(e.key)
  {
    if summaries == [] {
      assert ([] + [e])[1..] == [];
    } else {
      assert (summaries + [e])[1..] == summaries[1..] + [e];
      FilesOfSnoc(summaries[1..], e);
    }
  }

  // ---------------------------------------------------------------- prompts

  /** `f"{cat_key.split('_')[0]}_{cat_key.split('_')[1]}_prompt.txt"`, or
      `None` for the `IndexError` of a key without an underscore. */
  function PromptFileName(key: string): (name: Option<string>)
    ensures name.None? <==> '_' !in key
  {
    var parts := Split(key, '_');
    if |parts| < 2 then None
    else Some(parts[0] + "_" + parts[1] + "_prompt.txt")
  }

  /** A key `a_b_rest` names its prompt file after its first two fields. */
  lemma PromptFileOfKey(a: string, b: string, rest: string)
    requires '_' !in a && '_' !in b
    ensures PromptFileName(a + "_" + b + "_" + rest) == Some(a + "_" + b + "_prompt.txt")
  {
    SplitFirstTwo(a, b, rest);
  }

  /** The four section keys give the four prompt files. */
  lemma SchedulingPromptFile()
    ensures PromptFileName(SchedulingKey) == Some("1_Scheduling_prompt.txt")
  {
    var a, b, rest := "1", "Scheduling", "Optimization";
    assert SchedulingKey == a + "_" + b + "_" + rest;
    assert a + "_" + b + "_prompt.txt" == "1_Scheduling_prompt.txt";
    PromptFileOfKey(a, b, rest);
  }

  lemma AlgorithmsPromptFile()
    ensures PromptFileName(AlgorithmsKey) == Some("2_Algorithms_prompt.txt")
  {
    var a, b, rest := "2", "Algorithms", "Methods";
    assert AlgorithmsKey == a + "_" + b + "_" + rest;
    assert a + "_" + b + "_prompt.txt" == "2_Algorithms_prompt.txt";
    PromptFileOfKey(a, b, rest);
  }

  lemma AiPromptFile()
    ensures PromptFileName(AiKey) == Some("3_AI_prompt.txt")
  {
    var a, b, rest := "3", "AI", "MachineLearning";
    assert AiKey == a + "_" + b + "_" + rest;
    assert a + "_" + b + "_prompt.txt" == "3_AI_prompt.txt";
    PromptFileOfKey(a, b, rest);
  }

  lemma IndustryPromptFile()
    ensures PromptFileName(IndustryKey) == Some("4_Industry_prompt.txt")
  {
    var a, b, rest := "4", "Industry", "Applications";
    assert IndustryKey == a + "_" + b + "_" + rest;
    assert a + "_" + b + "_prompt.txt" == "4_Industry_prompt.txt";
    PromptFileOfKey(a, b, rest);
  }

  /** The prompt files of the four sections, in section order. */
  lemma SectionPromptFiles()
    ensures PromptFileName(Categories[0].key) == Some("1_Scheduling_prompt.txt")
    ensures PromptFileName(Categories[1].key) == Some("2_Algorithms_prompt.txt")
    ensures PromptFileName(Categories[2].key) == Some("3_AI_prompt.txt")
    ensures PromptFileName(Categories[3].key) == Some("4_Industry_prompt.txt")
  {
    SchedulingPromptFile();
    AlgorithmsPromptFile();
    AiPromptFile();
    IndustryPromptFile();
  }

  /** The four sections, with four keys that all hold an underscore. */
  lemma CategoriesShape()
    ensures |Categories| == CategoryCount
    ensures forall k :: 0 <= k < |Categories| ==> '_' in Categories[k].key
  {
    forall k | 0 <= k < |Categories|
      ensures '_' in Categories[k].key
    {
      assert Categories[k].key[1] == '_';
    }
  }

  /** `generate_report_prompts`: the files it writes, in order, and the base
      prompt's paper total. `completed` is false when a key without an
      underscore raised `IndexError` after the files before it were written. */
  method GenerateReportPrompts(summaries: seq<CategorySummary>)
    returns (written: seq<string>, total: nat, completed: bool)
    ensures total == SumPaperCounts(summaries)
    ensures completed <==> forall e :: e in summaries ==> '_' in e.key
    ensures |written| >= 1 && written[0] == "00_base_context.txt"
    ensures completed ==> |written| == |summaries| + 2 && written[|written| - 1] == "99_final_instructions.txt"
    ensures completed ==> forall i :: 0 <= i < |summaries| ==>
      Some(written[i + 1]) == PromptFileName(summaries[i].key)
  {
    total := SumPaperCounts(summaries);
    var i := 0;
    written := ["00_base_context.txt"];
    while i < |summaries|
      invariant 0 <= i <= |summaries|
      invariant |written| == i + 1 && written[0] == "00_base_context.txt"
      invariant forall t :: 0 <= t < i ==> '_' in summaries[t].key
      invariant forall t :: 0 <= t < i ==> Some(written[t + 1]) == PromptFileName(summaries[t].key)
    {
      var sectionFile := PromptFileName(summaries[i].key);
      if sectionFile.None? {
        completed := false;
        return;
      }
      written := written + [sectionFile.value];
      i := i + 1;
    }
    written := written + ["99_final_instructions.txt"];
    completed := true;
  }

  // ---------------------------------------------------------------- the run

  /** How `categorize_papers_for_report` ends: the percentage printout
      divides by the number of rows, so an empty table raises
      `ZeroDivisionError`; otherwise the sections, the summary entries, the
      joined summaries, the section files and the prompt files. */
  datatype ReportOutcome =
    | EmptyTable
    | Report(
        sections: seq<seq<Paper>>,
        summaries: seq<CategorySummary>,
        combined: seq<string>,
        sectionFiles: seq<string>,
        promptFiles: seq<string>,
        promptTotal: nat)

  /** `categorize_papers_for_report` over any table of four sections whose
      keys all hold an underscore. */
  method CategorizeWith(table: seq<Category>, rows: seq<SheetRow>, parse: ListParser) returns (outcome: ReportOutcome)
    requires |table| == CategoryCount
    requires forall k :: 0 <= k < |table| ==> '_' in table[k].key
    ensures rows == [] <==> outcome.EmptyTable?
    ensures outcome.Report? ==>
      && outcome.sections == Sections(table, rows, parse)
      && TotalPapers(outcome.sections) == UsableCount(rows)
      && outcome.summaries == SummariesFrom(table, outcome.sections, 0)
      && outcome.combined == CombinedFrom(table, outcome.sections, 0)
      && outcome.sectionFiles == FilesOf(outcome.summaries)
      && outcome.promptTotal == UsableCount(rows)
      && |outcome.promptFiles| == |outcome.summaries| + 2
      && outcome.promptFiles[0] == "00_base_context.txt"
      && outcome.promptFiles[|outcome.promptFiles| - 1] == "99_final_instructions.txt"
      && (forall i :: 0 <= i < |outcome.summaries| ==>
            Some(outcome.promptFiles[i + 1]) == PromptFileName(outcome.summaries[i].key))
  {
    var sections := CategorizePapers(table, rows, parse);
    if |rows| == 0 {
      return EmptyTable;
    }
    TotalIsUsableRows(table, rows, parse);
    var summaries, combined, files := SaveCategorizedPapers(table, sections);
    forall e | e in summaries
      ensures '_' in e.key
    {
      SummaryKeys(table, sections, 0, e);
    }
    var written, total, completed := GenerateReportPrompts(summaries);
    BaseTotalIsUsableRows(table, rows, parse);
    outcome := Report(sections, summaries, combined, files, written, total);
  }

  method CategorizePapersForReport(rows: seq<SheetRow>, parse: ListParser) returns (outcome: ReportOutcome)
    ensures rows == [] <==> outcome.EmptyTable?
    ensures outcome.Report? ==>
      && outcome.sections == Sections(Categories, rows, parse)
      && TotalPapers(outcome.sections) == UsableCount(rows)
      && outcome.summaries == SummariesFrom(Categories, outcome.sections, 0)
      && outcome.combined == CombinedFrom(Categories, outcome.sections, 0)
      && outcome.sectionFiles == FilesOf(outcome.summaries)
      && outcome.promptTotal == UsableCount(rows)
      && |outcome.promptFiles| == |outcome.summaries| + 2
      && outcome.promptFiles[0] == "00_base_context.txt"
      && outcome.promptFiles[|outcome.promptFiles| - 1] == "99_final_instructions.txt"
      && (forall i :: 0 <= i < |outcome.summaries| ==>
            Some(outcome.promptFiles[i + 1]) == PromptFileName(outcome.summaries[i].key))
  {
    CategoriesShape();
    outcome := CategorizeWith(Categories, rows, parse);
  }
}
