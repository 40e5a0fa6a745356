// The summary table as the post-processing scripts read it back from the
// workbook: one row per saved record, cells that may be missing, the
// categories column that holds a printed Python list, and the counting that
// `collections.Counter` does over it.

module Sheet {
  import opened Wrappers
  import opened Text

  /** A text cell: missing (`NaN` to pandas) or a string. */
  datatype Cell = NaN | Str(text: string)

  /** The categories cell: missing, a string (usually a printed list such as
      `"['Scheduling', 'AI']"`), or some other value, given by its `str()`. */
  datatype CategoryCell = CatNaN | CatStr(text: string) | CatOther(repr: string)

  /** One row of `batch_papers_summary.xlsx`, in the order of its columns. */
  datatype SheetRow = SheetRow(
    filename: Cell,
    title: Cell,
    abstractText: Cell,
    methodText: Cell,
    objectives: Cell,
    categories: CategoryCell,
    summary: Cell,
    processedAt: Cell)

  /** `str(cell)`: a missing cell prints as `"nan"`. */
  function CellStr(c: Cell): (s: string)
    ensures c.Str? ==> s == c.text
    ensures c.NaN? ==> s == "nan"
  {
    match c
    case NaN => "nan"
    case Str(t) => t
  }

  /** `eval` applied to a stored list: the items' `str()`s, or `None` when
      evaluating raised. */
  type ListParser = string -> Option<seq<string>>

  /** The mentions a categories cell contributes when only string cells are
      read: a `"["`-prefixed string is parsed, and a parse failure keeps the
      raw string; any other string is one mention. Missing and non-string
      cells contribute nothing. */
  function Mentions(c: CategoryCell, parse: ListParser): (ms: seq<string>)
    ensures c.CatStr? && !StartsWith(c.text, "[") ==> ms == [c.text]
    ensures c.CatStr? && StartsWith(c.text, "[") && parse(c.text).None? ==> ms == [c.text]
    ensures c.CatStr? && StartsWith(c.text, "[") && parse(c.text).Some? ==> ms == parse(c.text).value
    ensures !c.CatStr? ==> ms == []
  {
    match c
    case CatStr(s) =>
      if StartsWith(s, "[") then
        match parse(s)
        case Some(items) => items
        case None => [s]
      else [s]
    case _ => []
  }

  /** Every mention of the rows, in row order. */
  function AllMentions(rows: seq<SheetRow>, parse: ListParser): seq<string>
  {
    if rows == [] then []
    else AllMentions(rows[..|rows| - 1], parse) + Mentions(rows[|rows| - 1].categories, parse)
  }

  /** Rows without a string categories cell add no mention. */
  lemma {:induction false} AllMentionsSkipsNonStrings(rows: seq<SheetRow>, parse: ListParser)
    requires forall i :: 0 <= i < |rows| ==> !rows[i].categories.CatStr?
    ensures AllMentions(rows, parse) == []
  {
    if rows != [] {
      AllMentionsSkipsNonStrings(rows[..|rows| - 1], parse);
    }
  }

  /** The flatten loop: `for cats in df["categories"].dropna()`, keeping only
      strings, extending by the parsed list or appending the raw string. */
  method FlattenCategories(rows: seq<SheetRow>, parse: ListParser) returns (all: seq<string>)
    ensures all == AllMentions(rows, parse)
  {
    all := [];
    var i := 0;
    while i < |rows|
      invariant 0 <= i <= |rows|
      invariant all == AllMentions(rows[..i], parse)
    {
      assert rows[..i + 1][..i] == rows[..i];
      match rows[i].categories {
        case CatStr(cats) =>
          if StartsWith(cats, "[") {
            var parsed := parse(cats);
            if parsed.Some? {
              all := all + parsed.value;
            } else {
              all := all + [cats];
            }
          } else {
            all := all + [cats];
          }
        case _ =>
      }
      i := i + 1;
    }
    assert rows[..i] == rows;
  }

  // ---------------------------------------------------------------- Counter

  /** How often `x` occurs in `xs`. */
  function Occurrences(xs: seq<string>, x: string): (k: nat)
    ensures k <= |xs|
    ensures k > 0 <==> x in xs
  {
    if xs == [] then 0
    else Occurrences(xs[..|xs| - 1], x) + (if xs[|xs| - 1] == x then 1 else 0)
  }

  predicate NoDuplicates(xs: seq<string>) {
    forall i, j :: 0 <= i < j < |xs| ==> xs[i] != xs[j]
  }

  /** The distinct values of `xs` in order of first occurrence: the key order
      of `Counter(xs)`. */
  function Distinct(xs: seq<string>): (d: seq<string>)
    ensures NoDuplicates(d)
    ensures forall x :: x in d <==> x in xs
  {
    if xs == [] then []
    else
      var init := Distinct(xs[..|xs| - 1]);
      var last := xs[|xs| - 1];
      assert forall x :: x in xs <==> x in xs[..|xs| - 1] || x == last;
      if last in xs[..|xs| - 1] then init else init + [last]
  }

  /** `Counter(xs).items()`: each distinct value with its count, in order of
      first occurrence. */
  function CounterOf(xs: seq<string>): (c: seq<(string, nat)>)
    ensures |c| == |Distinct(xs)|
    ensures forall i :: 0 <= i < |c| ==> c[i] == (Distinct(xs)[i], Occurrences(xs, Distinct(xs)[i]))
  {
    var d := Distinct(xs);
    seq(|d|, i requires 0 <= i < |d| => (d[i], Occurrences(xs, d[i])))
  }

  /** Sum of the counts of a list of `(value, count)` pairs. */
  function SumCounts(c: seq<(string, nat)>): nat
  {
    if c == [] then 0 else SumCounts(c[..|c| - 1]) + c[|c| - 1].1
  }

  /** Sum, over `d`, of how often each value occurs in `xs`. */
  function SumOccurrences(d: seq<string>, xs: seq<string>): nat
  {
    if d == [] then 0 else SumOccurrences(d[..|d| - 1], xs) + Occurrences(xs, d[|d| - 1])
  }

  lemma {:induction false} SumOccurrencesNone(d: seq<string>)
    ensures SumOccurrences(d, []) == 0
  {
    if d != [] {
      SumOccurrencesNone(d[..|d| - 1]);
    }
  }

  lemma {:induction false} SumOccurrencesSnoc(d: seq<string>, xs: seq<string>, x: string)
    ensures SumOccurrences(d, xs + [x]) == SumOccurrences(d, xs) + Occurrences(d, x)
  {
    assert (xs + [x])[..|xs|] == xs;
    if d != [] {
      SumOccurrencesSnoc(d[..|d| - 1], xs, x);
    }
  }

  /** A value occurs once in a list without duplicates that holds it. */
  lemma {:induction false} OccursOnce(d: seq<string>, x: string)
    requires NoDuplicates(d) && x in d
    ensures Occurrences(d, x) == 1
  {
    var init := d[..|d| - 1];
    if d[|d| - 1] == x {
      assert x !in init;
    } else {
      assert x in init;
      OccursOnce(init, x);
    }
  }

  /** Counting the values of `xs` over any duplicate-free list holding all of
      them counts `xs` once. */
  lemma {:induction false} SumOccurrencesCovers(d: seq<string>, xs: seq<string>)
    requires NoDuplicates(d)
    requires forall x :: x in xs ==> x in d
    ensures SumOccurrences(d, xs) == |xs|
  {
    if xs == [] {
      SumOccurrencesNone(d);
    } else {
      var init, last := xs[..|xs| - 1], xs[|xs| - 1];
      assert xs == init + [last];
      SumOccurrencesCovers(d, init);
      SumOccurrencesSnoc(d, init, last);
      OccursOnce(d, last);
    }
  }

  lemma {:induction false} SumCountsIsSumOccurrences(xs: seq<string>, d: seq<string>)
    ensures SumCounts(seq(|d|, i requires 0 <= i < |d| => (d[i], Occurrences(xs, d[i]))))
         == SumOccurrences(d, xs)
  {
    if d != [] {
      var n := |d| - 1;
      SumCountsIsSumOccurrences(xs, d[..n]);
      var c := seq(|d|, i requires 0 <= i < |d| => (d[i], Occurrences(xs, d[i])));
      assert c[..n] == seq(n, i requires 0 <= i < n => (d[..n][i], Occurrences(xs, d[..n][i])));
    }
  }

  /** The counts of a `Counter` add up to the number of values counted. */
  lemma CounterSumsToLength(xs: seq<string>)
    ensures SumCounts(CounterOf(xs)) == |xs|
  {
    var d := Distinct(xs);
    assert CounterOf(xs) == seq(|d|, i requires 0 <= i < |d| => (d[i], Occurrences(xs, d[i])));
    SumCountsIsSumOccurrences(xs, d);
    SumOccurrencesCovers(d, xs);
  }

  /** The keys of a `Counter` are distinct and are exactly the values counted,
      each with a positive count. */
  lemma CounterKeys(xs: seq<string>)
    ensures forall i, j :: 0 <= i < j < |CounterOf(xs)| ==> CounterOf(xs)[i].0 != CounterOf(xs)[j].0
    ensures forall x :: x in xs <==> exists i :: 0 <= i < |CounterOf(xs)| && CounterOf(xs)[i].0 == x
    ensures forall i :: 0 <= i < |CounterOf(xs)| ==> CounterOf(xs)[i].1 > 0
  {
    var d := Distinct(xs);
    forall x | x in xs
      ensures exists i :: 0 <= i < |CounterOf(xs)| && CounterOf(xs)[i].0 == x
    {
      var i :| 0 <= i < |d| && d[i] == x;
      assert CounterOf(xs)[i].0 == x;
    }
  }
}
