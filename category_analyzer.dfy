// `analyze_categories`: every category mention in the summary table is
// cleaned and counted, each distinct category is filed under the first
// research area one of whose keywords it contains, the areas are ranked by
// their mention totals, and the areas with enough mentions become the
// suggested sections of the report.

module CategoryAnalyzer {
  import opened Wrappers
  import opened Text
  import opened Sheet

  /** A research area and the keywords that file a category under it. */
  datatype Area = Area(name: string, keywords: seq<string>)

  /** The six research areas, in the dictionary's (and so the matching's)
      order. */
  const ResearchAreas: seq<Area> := [
    Area("Scheduling & Optimization",
      ["scheduling", "job shop", "flexible", "makespan", "optimization", "multi-objective",
       "flowshop", "batch", "production", "workflow"]),
    Area("Algorithms & Methods",
      ["algorithm", "genetic", "metaheuristic", "ant colony", "particle swarm", "tabu search",
       "simulated annealing", "heuristic", "evolutionary", "neural network", "machine learning",
       "artificial intelligence"]),
    Area("Manufacturing & Industry",
      ["manufacturing", "industry", "production", "factory", "automation", "industrial",
       "supply chain", "logistics", "resource allocation"]),
    Area("Deep Learning & AI",
      ["deep learning", "reinforcement learning", "neural", "ai", "artificial intelligence",
       "machine learning", "deep reinforcement", "convolutional", "lstm"]),
    Area("Mathematical Models",
      ["mathematical", "model", "programming", "linear", "integer", "constraint",
       "mathematical programming", "milp", "optimization model"]),
    Area("Performance & Evaluation",
      ["performance", "evaluation", "benchmark", "comparison", "analysis", "efficiency",
       "effectiveness", "quality", "metrics"])
  ]

  const AreaCount: nat := 6

  /** An area with at least this many mentions is a section of its own. */
  const SignificantMentions: nat := 20

  /** Uncategorised mentions that earn a section of their own. */
  const EmergingMentions: nat := 15

  const EmergingSection: string := "Emerging Technologies & Others"

  /** The pages shared among the main sections. */
  const SectionPages: nat := 35

  // ---------------------------------------------------------------- cleaning

  /** `str(cat).strip().lower()`. */
  function Clean(cat: string): (c: string)
    ensures |c| <= |cat|
    ensures Lower(c) == c
    ensures c == Lower(Strip(cat))
  {
    LowerIdempotent(Strip(cat));
    Lower(Strip(cat))
  }

  /** Every mention cleaned. */
  function CleanAll(all: seq<string>): (cleaned: seq<string>)
    ensures |cleaned| == |all|
    ensures forall i :: 0 <= i < |all| ==> cleaned[i] == Clean(all[i])
  {
    seq(|all|, i requires 0 <= i < |all| => Clean(all[i]))
  }

  /** The cleaning loop over every mention. */
  method CleanCategories(all: seq<string>) returns (cleaned: seq<string>)
    ensures cleaned == CleanAll(all)
  {
    cleaned := [];
    var i := 0;
    while i < |all|
      invariant 0 <= i <= |all|
      invariant cleaned == CleanAll(all[..i])
    {
      var cleanedCat := Clean(all[i]);
      CleanAllStep(all, i);
      cleaned := cleaned + [cleanedCat];
      i := i + 1;
    }
    assert all[..i] == all;
  }

  lemma CleanAllStep(all: seq<string>, i: nat)
    requires i < |all|
    ensures CleanAll(all[..i + 1]) == CleanAll(all[..i]) + [Clean(all[i])]
  {
    var a, b := CleanAll(all[..i + 1]), CleanAll(all[..i]) + [Clean(all[i])];
    assert |a| == |b|;
    forall t | 0 <= t < |a| ensures a[t] == b[t] {
      if t < i {
        assert all[..i + 1][t] == all[..i][t];
      }
    }
  }

  /** Cleaning twice changes nothing more. */
  lemma CleanIdempotent(cat: string)
    ensures Clean(Clean(cat)) == Clean(cat)
  {
    var s := Strip(cat);
    var c := Clean(cat);
    assert c == Lower(s);
    StripIdempotent(cat);
    StripOfLower(s);
    assert Strip(c) == c;
    LowerIdempotent(s);
    assert Clean(c) == Lower(c);
  }

  /** Lowering a stripped string leaves nothing to strip. */
  lemma StripOfLower(s: string)
    requires Strip(s) == s
    ensures Strip(Lower(s)) == Lower(s)
  {
    var l := Lower(s);
    if l != [] {
      assert !IsSpace(s[0]) && !IsSpace(s[|s| - 1]);
      LowerKeepsNonSpace(s[0]);
      LowerKeepsNonSpace(s[|s| - 1]);
      StripUnpadded(l);
    }
  }

  lemma LowerKeepsNonSpace(c: char)
    requires !IsSpace(c)
    ensures !IsSpace(LowerChar(c))
  {
  }

  /** A string with no whitespace at either end is its own `strip()`. */
  lemma StripUnpadded(s: string)
    requires s != [] && !IsSpace(s[0]) && !IsSpace(s[|s| - 1])
    ensures Strip(s) == s
  {
    assert LeadingSpaces(s) == 0;
    assert s[0..] == s;
    assert TrailingSpaces(s) == 0;
    assert s[..|s|] == s;
  }

  // ---------------------------------------------------------------- areas

  /** `any(keyword in cat for keyword in keywords)`. */
  predicate Matches(keywords: seq<string>, cat: string) {
    exists i :: 0 <= i < |keywords| && Contains(cat, keywords[i])
  }

  /** The first area from `a` on that one of whose keywords `cat` contains. */
  function FirstAreaFrom(areas: seq<Area>, cat: string, a: nat): (r: Option<nat>)
    requires a <= |areas|
    ensures r.Some? ==> a <= r.value < |areas| && Matches(areas[r.value].keywords, cat)
    ensures r.Some? ==> forall t :: a <= t < r.value ==> !Matches(areas[t].keywords, cat)
    ensures r.None? ==> forall t :: a <= t < |areas| ==> !Matches(areas[t].keywords, cat)
    decreases |areas| - a
  {
    if a == |areas| then None
    else if Matches(areas[a].keywords, cat) then Some(a)
    else FirstAreaFrom(areas, cat, a + 1)
  }

  /** The area a category is filed under, or `None` when it is
      uncategorised. */
  function FirstArea(areas: seq<Area>, cat: string): (r: Option<nat>)
    ensures r.Some? ==> r.value < |areas| && Matches(areas[r.value].keywords, cat)
    ensures r.Some? ==> forall t :: 0 <= t < r.value ==> !Matches(areas[t].keywords, cat)
    ensures r.None? <==> forall t :: 0 <= t < |areas| ==> !Matches(areas[t].keywords, cat)
  {
    FirstAreaFrom(areas, cat, 0)
  }

  /** The counted categories filed under area `a`, in counter order. */
  function AreaItems(areas: seq<Area>, items: seq<(string, nat)>, a: nat): (r: seq<(string, nat)>)
    ensures |r| <= |items|
    ensures forall e :: e in r ==> e in items && FirstArea(areas, e.0) == Some(a)
  {
    if items == [] then []
    else
      var e := items[|items| - 1];
      AreaItems(areas, items[..|items| - 1], a) + (if FirstArea(areas, e.0) == Some(a) then [e] else [])
  }

  /** The counted categories no area claims, in counter order. */
  function Uncategorized(areas: seq<Area>, items: seq<(string, nat)>): (r: seq<(string, nat)>)
    ensures |r| <= |items|
    ensures forall e :: e in r ==> e in items && FirstArea(areas, e.0).None?
  {
    if items == [] then []
    else
      var e := items[|items| - 1];
      Uncategorized(areas, items[..|items| - 1]) + (if FirstArea(areas, e.0).None? then [e] else [])
  }

  /** `area_counts`: each area's total of mentions. */
  function AreaCounts(areas: seq<Area>, items: seq<(string, nat)>): (counts: seq<nat>)
    ensures |counts| == |areas|
    ensures forall a :: 0 <= a < |areas| ==> counts[a] == SumCounts(AreaItems(areas, items, a))
  {
    seq(|areas|, a requires 0 <= a < |areas| => SumCounts(AreaItems(areas, items, a)))
  }

  /** `categorized_items`: each area's counted categories. */
  function AreaLists(areas: seq<Area>, items: seq<(string, nat)>): (lists: seq<seq<(string, nat)>>)
    ensures |lists| == |areas|
    ensures forall a :: 0 <= a < |areas| ==> lists[a] == AreaItems(areas, items, a)
  {
    seq(|areas|, a requires 0 <= a < |areas| => AreaItems(areas, items, a))
  }

  /** The inner loop over the areas for one category: the first area one
      of whose keywords it contains, with `break`. */
  method FileCategory(areas: seq<Area>, cat: string) returns (area: Option<nat>)
    ensures area == FirstArea(areas, cat)
  {
    area := None;
    var a := 0;
    while a < |areas|
      invariant 0 <= a <= |areas|
      invariant area.None?
      invariant FirstAreaFrom(areas, cat, a) == FirstArea(areas, cat)
    {
      if Matches(areas[a].keywords, cat) {
        area := Some(a);
        break;
      }
      a := a + 1;
    }
  }

  /** The filing loop over the counter: each category goes to the first area
      that matches it, or to the uncategorised list. */
  method AssignAreas(areas: seq<Area>, items: seq<(string, nat)>)
    returns (areaCounts: seq<nat>, categorizedItems: seq<seq<(string, nat)>>, uncategorized: seq<(string, nat)>)
    ensures areaCounts == AreaCounts(areas, items)
    ensures categorizedItems == AreaLists(areas, items)
    ensures uncategorized == Uncategorized(areas, items)
  {
    areaCounts := seq(|areas|, a => 0);
    categorizedItems := seq(|areas|, a => []);
    uncategorized := [];
    AssignStart(areas, items, areaCounts, categorizedItems);
    var i := 0;
    while i < |items|
      invariant 0 <= i <= |items|
      invariant AssignedSoFar(areas, items[..i], areaCounts, categorizedItems, uncategorized)
    {
      areaCounts, categorizedItems, uncategorized := FileItem(areas, items, i, areaCounts, categorizedItems, uncategorized);
      i := i + 1;
    }
    AssignDone(areas, items, areaCounts, categorizedItems, uncategorized);
  }

  /** One round of the filing loop: item `i` goes to its area's total and
      list, or to the uncategorised list. */
  method FileItem(areas: seq<Area>, items: seq<(string, nat)>, i: nat,
                  counts0: seq<nat>, lists0: seq<seq<(string, nat)>>, uncat0: seq<(string, nat)>)
    returns (areaCounts: seq<nat>, categorizedItems: seq<seq<(string, nat)>>, uncategorized: seq<(string, nat)>)
    requires i < |items|
    requires AssignedSoFar(areas, items[..i], counts0, lists0, uncat0)
    ensures AssignedSoFar(areas, items[..i + 1], areaCounts, categorizedItems, uncategorized)
  {
    var item := items[i];
    var area := FileCategory(areas, item.0);
    if area.Some? {
      var a := area.value;
      FileInArea(areas, items, i, a, counts0, lists0, uncat0);
      areaCounts := counts0[a := counts0[a] + item.1];
      categorizedItems := lists0[a := lists0[a] + [item]];
      uncategorized := uncat0;
    } else {
      FileUncategorized(areas, items, i, counts0, lists0, uncat0);
      areaCounts, categorizedItems := counts0, lists0;
      uncategorized := uncat0 + [item];
    }
  }

  lemma AssignStart(areas: seq<Area>, items: seq<(string, nat)>,
                    counts: seq<nat>, lists: seq<seq<(string, nat)>>)
    requires counts == seq(|areas|, a => 0) && lists == seq(|areas|, a => [])
    ensures AssignedSoFar(areas, items[..0], counts, lists, [])
  {
    assert items[..0] == [];
  }

  lemma AssignDone(areas: seq<Area>, items: seq<(string, nat)>,
                   counts: seq<nat>, lists: seq<seq<(string, nat)>>, uncat: seq<(string, nat)>)
    requires AssignedSoFar(areas, items[..|items|], counts, lists, uncat)
    ensures counts == AreaCounts(areas, items)
    ensures lists == AreaLists(areas, items)
    ensures uncat == Uncategorized(areas, items)
  {
    assert items[..|items|] == items;
  }

  /** The filing loop's invariant: the results so far are those of the
      first items. */
  ghost predicate AssignedSoFar(areas: seq<Area>, items: seq<(string, nat)>, areaCounts: seq<nat>,
                                categorizedItems: seq<seq<(string, nat)>>, uncategorized: seq<(string, nat)>) {
    && |areaCounts| == |areas| && |categorizedItems| == |areas|
    && (forall a :: 0 <= a < |areas| ==>
          categorizedItems[a] == AreaItems(areas, items, a)
          && areaCounts[a] == SumCounts(AreaItems(areas, items, a)))
    && uncategorized == Uncategorized(areas, items)
  }

  /** Filing item `i` under area `k` keeps the invariant. */
  lemma FileInArea(areas: seq<Area>, items: seq<(string, nat)>, i: nat, k: nat,
                   counts0: seq<nat>, lists0: seq<seq<(string, nat)>>, uncat: seq<(string, nat)>)
    requires i < |items| && FirstArea(areas, items[i].0) == Some(k)
    requires AssignedSoFar(areas, items[..i], counts0, lists0, uncat)
    ensures AssignedSoFar(areas, items[..i + 1], counts0[k := counts0[k] + items[i].1],
                          lists0[k := lists0[k] + [items[i]]], uncat)
  {
    var pre := items[..i + 1];
    var counts1 := counts0[k := counts0[k] + items[i].1];
    var lists1 := lists0[k := lists0[k] + [items[i]]];
    forall a | 0 <= a < |areas|
      ensures lists1[a] == AreaItems(areas, pre, a) && counts1[a] == SumCounts(AreaItems(areas, pre, a))
    {
      AreaItemsStep(areas, items, i, a);
      if a == k {
        assert lists1[a] == lists0[k] + [items[i]] && counts1[a] == counts0[k] + items[i].1;
      } else {
        assert lists1[a] == lists0[a] && counts1[a] == counts0[a];
      }
    }
    UncategorizedStep(areas, items, i);
  }

  /** Filing item `i` as uncategorised keeps the invariant. */
  lemma FileUncategorized(areas: seq<Area>, items: seq<(string, nat)>, i: nat,
                          counts: seq<nat>, lists: seq<seq<(string, nat)>>, uncat0: seq<(string, nat)>)
    requires i < |items| && FirstArea(areas, items[i].0).None?
    requires AssignedSoFar(areas, items[..i], counts, lists, uncat0)
    ensures AssignedSoFar(areas, items[..i + 1], counts, lists, uncat0 + [items[i]])
  {
    var pre := items[..i + 1];
    assert pre[..i] == items[..i] && pre[i] == items[i];
    forall a | 0 <= a < |areas|
      ensures AreaItems(areas, pre, a) == AreaItems(areas, items[..i], a)
    {
      AreaItemsStep(areas, items, i, a);
    }
    UncategorizedStep(areas, items, i);
  }

  /** Item `i` joins the uncategorised list exactly when no area claims it. */
  lemma UncategorizedStep(areas: seq<Area>, items: seq<(string, nat)>, i: nat)
    requires i < |items|
    ensures Uncategorized(areas, items[..i + 1])
         == Uncategorized(areas, items[..i]) + (if FirstArea(areas, items[i].0).None? then [items[i]] else [])
  {
    var pre := items[..i + 1];
    assert pre[..i] == items[..i] && pre[i] == items[i];
  }

  /** Item `i` joins the list of its own area and of no other. */
  lemma AreaItemsStep(areas: seq<Area>, items: seq<(string, nat)>, i: nat, a: nat)
    requires i < |items|
    ensures var old0 := AreaItems(areas, items[..i], a);
      if FirstArea(areas, items[i].0) == Some(a) then
        AreaItems(areas, items[..i + 1], a) == old0 + [items[i]]
        && SumCounts(AreaItems(areas, items[..i + 1], a)) == SumCounts(old0) + items[i].1
      else AreaItems(areas, items[..i + 1], a) == old0
  {
    var pre := items[..i + 1];
    assert pre[..i] == items[..i] && pre[i] == items[i];
    var old0 := AreaItems(areas, items[..i], a);
    if FirstArea(areas, items[i].0) == Some(a) {
      var ext := old0 + [items[i]];
      assert ext[..|ext| - 1] == old0;
    } else {
      assert old0 + [] == old0;
    }
  }

  /** First match wins: `"production"` is a keyword of two areas and is
      filed under the first, Scheduling & Optimization. */
  lemma ProductionIsScheduling()
    ensures FirstArea(ResearchAreas, "production") == Some(0)
  {
    var kws := ResearchAreas[0].keywords;
    assert kws[8] == "production";
    assert OccursAt("production", kws[8], 0);
    assert Contains("production", kws[8]);
    assert Matches(kws, "production");
  }

  // ---------------------------------------------------------------- totals

  /** Sum of a list of numbers. */
  function Sum(xs: seq<nat>): nat {
    if xs == [] then 0 else xs[0] + Sum(xs[1..])
  }

  /** Adding `d` at position `j` adds `d` to the sum. */
  lemma {:induction false} SumAddAt(xs: seq<nat>, ys: seq<nat>, j: nat, d: nat)
    requires |xs| == |ys| && j < |xs|
    requires forall t :: 0 <= t < |xs| ==> ys[t] == xs[t] + (if t == j then d else 0)
    ensures Sum(ys) == Sum(xs) + d
  {
    if j == 0 {
      SumSame(xs[1..], ys[1..]);
    } else {
      SumAddAt(xs[1..], ys[1..], j - 1, d);
    }
  }

  lemma {:induction false} SumSame(xs: seq<nat>, ys: seq<nat>)
    requires |xs| == |ys|
    requires forall t :: 0 <= t < |xs| ==> ys[t] == xs[t]
    ensures Sum(ys) == Sum(xs)
  {
    assert xs == ys;
  }

  lemma {:induction false} SumZero(xs: seq<nat>)
    requires forall t :: 0 <= t < |xs| ==> xs[t] == 0
    ensures Sum(xs) == 0
  {
    if xs != [] {
      SumZero(xs[1..]);
    }
  }

  /** One more item adds its count to its own area's total and to no other. */
  lemma AreaCountsStep(areas: seq<Area>, items: seq<(string, nat)>)
    requires items != []
    ensures var n := |items| - 1;
      forall t :: 0 <= t < |areas| ==>
        AreaCounts(areas, items)[t]
        == AreaCounts(areas, items[..n])[t] + (if FirstArea(areas, items[n].0) == Some(t) then items[n].1 else 0)
  {
    var n := |items| - 1;
    forall t | 0 <= t < |areas|
      ensures AreaCounts(areas, items)[t]
        == AreaCounts(areas, items[..n])[t] + (if FirstArea(areas, items[n].0) == Some(t) then items[n].1 else 0)
    {
      var pre := AreaItems(areas, items[..n], t);
      if FirstArea(areas, items[n].0) == Some(t) {
        var ext := pre + [items[n]];
        assert ext[..|ext| - 1] == pre;
      } else {
        assert pre + [] == pre;
      }
    }
  }

  /** No mention is lost or counted twice: the area totals and the
      uncategorised counts add up to the counts of all items. */
  lemma {:induction false} FilingConserves(areas: seq<Area>, items: seq<(string, nat)>)
    ensures Sum(AreaCounts(areas, items)) + SumCounts(Uncategorized(areas, items)) == SumCounts(items)
  {
    if items == [] {
      SumZero(AreaCounts(areas, items));
    } else {
      var n := |items| - 1;
      var init, e := items[..n], items[n];
      FilingConserves(areas, init);
      AreaCountsStep(areas, items);
      var before, after := AreaCounts(areas, init), AreaCounts(areas, items);
      var area := FirstArea(areas, e.0);
      var u0 := Uncategorized(areas, init);
      assert SumCounts(items) == SumCounts(init) + e.1;
      if area.None? {
        SumSame(before, after);
        var u := u0 + [e];
        assert u[..|u| - 1] == u0;
        assert Uncategorized(areas, items) == u;
        assert SumCounts(u) == SumCounts(u0) + e.1;
      } else {
        SumAddAt(before, after, area.value, e.1);
        assert Uncategorized(areas, items) == u0 + [] == u0;
      }
    }
  }

  /** With the items of the counter, every cleaned mention is counted once. */
  lemma MentionsConserved(areas: seq<Area>, cleaned: seq<string>)
    ensures Sum(AreaCounts(areas, CounterOf(cleaned))) + SumCounts(Uncategorized(areas, CounterOf(cleaned)))
         == |cleaned|
  {
    FilingConserves(areas, CounterOf(cleaned));
    CounterSumsToLength(cleaned);
  }

  // ---------------------------------------------------------------- ranking

  /** Area `x` comes before area `y` in `sorted_areas`: a higher total, or
      the same total and earlier in the dictionary (the sort is stable). */
  predicate Before(counts: seq<nat>, x: nat, y: nat)
    requires x < |counts| && y < |counts|
  {
    counts[x] > counts[y] || (counts[x] == counts[y] && x < y)
  }

  predicate Ranked(counts: seq<nat>, s: seq<nat>) {
    && (forall i :: 0 <= i < |s| ==> s[i] < |counts|)
    && (forall i, j :: 0 <= i < j < |s| ==> Before(counts, s[i], s[j]))
  }

  /** Place `x` after every area at least as large. */
  function Insert(counts: seq<nat>, s: seq<nat>, x: nat): (r: seq<nat>)
    requires x < |counts|
    requires forall i :: 0 <= i < |s| ==> s[i] < |counts|
    ensures |r| == |s| + 1
    ensures forall y :: y in r <==> y in s || y == x
  {
    if s == [] then [x]
    else if counts[s[0]] < counts[x] then [x] + s
    else [s[0]] + Insert(counts, s[1..], x)
  }

  lemma {:induction false} InsertRanked(counts: seq<nat>, s: seq<nat>, x: nat)
    requires x < |counts| && Ranked(counts, s)
    requires forall i :: 0 <= i < |s| ==> s[i] < x
    ensures Ranked(counts, Insert(counts, s, x))
  {
    if s != [] && counts[s[0]] >= counts[x] {
      var tail := s[1..];
      assert Ranked(counts, tail) by {
        forall i, j | 0 <= i < j < |tail|
          ensures Before(counts, tail[i], tail[j])
        {
          assert tail[i] == s[i + 1] && tail[j] == s[j + 1];
        }
      }
      InsertRanked(counts, tail, x);
      var r := Insert(counts, s, x);
      var rest := Insert(counts, tail, x);
      assert r == [s[0]] + rest;
      forall j | 0 < j < |r|
        ensures Before(counts, s[0], r[j])
      {
        assert r[j] in rest;
        if r[j] != x {
          var k :| 0 <= k < |tail| && tail[k] == r[j];
          assert s[k + 1] == r[j];
        }
      }
    }
  }

  /** `sorted(area_counts.items(), key=count, reverse=True)` as area
      indices: the first `n` areas, inserted in dictionary order. */
  function RankFirst(counts: seq<nat>, n: nat): (r: seq<nat>)
    requires n <= |counts|
    ensures |r| == n
    ensures forall y :: y in r <==> 0 <= y < n
    ensures forall i :: 0 <= i < |r| ==> r[i] < n
  {
    if n == 0 then []
    else
      var r := Insert(counts, RankFirst(counts, n - 1), n - 1);
      assert forall i :: 0 <= i < |r| ==> r[i] in r;
      r
  }

  function RankAreas(counts: seq<nat>): (r: seq<nat>)
    ensures |r| == |counts|
  {
    RankFirst(counts, |counts|)
  }

  /** The ranking holds every area once, by descending total, ties kept in
      dictionary order. */
  lemma {:induction false} RankFirstRanked(counts: seq<nat>, n: nat)
    requires n <= |counts|
    ensures Ranked(counts, RankFirst(counts, n))
  {
    if n > 0 {
      RankFirstRanked(counts, n - 1);
      InsertRanked(counts, RankFirst(counts, n - 1), n - 1);
    }
  }

  lemma RankAreasIsRanking(counts: seq<nat>)
    ensures Ranked(counts, RankAreas(counts))
    ensures forall y :: y in RankAreas(counts) <==> 0 <= y < |counts|
    ensures forall i, j :: 0 <= i < j < |RankAreas(counts)| ==> RankAreas(counts)[i] != RankAreas(counts)[j]
  {
    RankFirstRanked(counts, |counts|);
  }

  // ---------------------------------------------------------------- structure

  /** `[area for area, count in sorted_areas if count >= 20]`. */
  function Significant(areas: seq<Area>, counts: seq<nat>, ranked: seq<nat>): (names: seq<string>)
    requires |counts| == |areas|
    requires forall i :: 0 <= i < |ranked| ==> ranked[i] < |areas|
    ensures |names| <= |ranked|
  {
    if ranked == [] then []
    else
      var a := ranked[|ranked| - 1];
      Significant(areas, counts, ranked[..|ranked| - 1])
      + (if counts[a] >= SignificantMentions then [areas[a].name] else [])
  }

  /** Every significant name is the name of a ranked area with enough
      mentions. */
  lemma {:induction false} SignificantOnlyEnough(areas: seq<Area>, counts: seq<nat>, ranked: seq<nat>, x: string)
    requires |counts| == |areas|
    requires forall i :: 0 <= i < |ranked| ==> ranked[i] < |areas|
    requires x in Significant(areas, counts, ranked)
    ensures exists i :: 0 <= i < |ranked| && areas[ranked[i]].name == x && counts[ranked[i]] >= SignificantMentions
  {
    var n := |ranked| - 1;
    var init := ranked[..n];
    if x in Significant(areas, counts, init) {
      SignificantOnlyEnough(areas, counts, init, x);
      var i :| 0 <= i < n && areas[init[i]].name == x && counts[init[i]] >= SignificantMentions;
      assert ranked[i] == init[i];
    } else {
      assert areas[ranked[n]].name == x && counts[ranked[n]] >= SignificantMentions;
    }
  }

  /** Every ranked area with enough mentions is named among the significant
      ones. */
  lemma {:induction false} EnoughIsSignificant(areas: seq<Area>, counts: seq<nat>, ranked: seq<nat>, i: nat)
    requires |counts| == |areas|
    requires forall j :: 0 <= j < |ranked| ==> ranked[j] < |areas|
    requires i < |ranked| && counts[ranked[i]] >= SignificantMentions
    ensures areas[ranked[i]].name in Significant(areas, counts, ranked)
  {
    var n := |ranked| - 1;
    var init := ranked[..n];
    if i < n {
      assert init[i] == ranked[i];
      EnoughIsSignificant(areas, counts, init, i);
    }
  }

  /** An uncategorised group of at least 15 mentions gets its own section. */
  predicate Emerging(uncategorized: seq<(string, nat)>) {
    uncategorized != [] && SumCounts(uncategorized) >= EmergingMentions
  }

  /** `recommended_structure`. With one name per area at most, the branch
      that keeps the top six never runs. */
  function Structure(areas: seq<Area>, counts: seq<nat>, uncategorized: seq<(string, nat)>): (s: seq<string>)
    requires |counts| == |areas|
    ensures |s| <= |areas| + 1
    ensures var sig := Significant(areas, counts, RankAreas(counts));
      |sig| <= |s| && s[..|sig|] == sig
    ensures Emerging(uncategorized) <==>
      (|s| > 0 && s[|s| - 1] == EmergingSection && |s| == |Significant(areas, counts, RankAreas(counts))| + 1)
  {
    var ranked := RankAreas(counts);
    RankAreasIsRanking(counts);
    assert forall i :: 0 <= i < |ranked| ==> ranked[i] < |areas| by {
      forall i | 0 <= i < |ranked| ensures ranked[i] < |areas| {
        assert ranked[i] in ranked;
      }
    }
    var significant := Significant(areas, counts, ranked);
    significant + (if Emerging(uncategorized) then [EmergingSection] else [])
  }

  /** Six areas give at most six significant ones, so the condition
      `len(significant_areas) <= 6` always holds and at most seven sections
      are suggested; each then gets at least five pages. */
  lemma StructureBounds(counts: seq<nat>, uncategorized: seq<(string, nat)>)
    requires |counts| == AreaCount && |ResearchAreas| == AreaCount
    ensures |Significant(ResearchAreas, counts, RankAreas(counts))| <= AreaCount
    ensures var s := Structure(ResearchAreas, counts, uncategorized);
      |s| <= AreaCount + 1 && (|s| > 0 ==> PagesPerSection(|s|) >= 5)
  {
    var s := Structure(ResearchAreas, counts, uncategorized);
    if |s| > 0 {
      PagesAtLeastFive(|s|);
    }
  }

  /** `35 // len(recommended_structure)`: the most whole pages each section
      can get. */
  function PagesPerSection(sections: nat): (pages: nat)
    requires sections > 0
    ensures pages * sections <= SectionPages < (pages + 1) * sections
  {
    SectionPages / sections
  }

  lemma PagesAtLeastFive(k: nat)
    requires 1 <= k <= 7
    ensures PagesPerSection(k) >= 5
  {
    if k == 1 {
    } else if k == 2 {
    } else if k == 3 {
    } else if k == 4 {
    } else if k == 5 {
    } else if k == 6 {
    } else {
      assert k == 7;
    }
  }

  // ---------------------------------------------------------------- the run

  /** What `analyze_categories` returns: the number of distinct cleaned
      categories, the counter, each area's total and list, the suggested
      sections and, as printed, the pages per section. */
  datatype Analysis = Analysis(
    totalCategories: nat,
    categoryCounts: seq<(string, nat)>,
    researchAreas: seq<nat>,
    recommendedStructure: seq<string>,
    categorizedItems: seq<seq<(string, nat)>>,
    pagesPerSection: nat)

  /** The analysis over a list of at most six areas (with more, the source's
      top-six cut of the suggested sections would come into play). */
  method AnalyzeWith(areas: seq<Area>, table: Option<seq<SheetRow>>, parse: ListParser) returns (result: Option<Analysis>)
    requires |areas| <= AreaCount
    ensures table.None? ==> result.None?
    ensures table.Some? ==>
      var rows := table.value;
      var cleaned := CleanAll(AllMentions(rows, parse));
      var items := CounterOf(cleaned);
      var counts := AreaCounts(areas, items);
      var structure := Structure(areas, counts, Uncategorized(areas, items));
      && (result.None? <==> rows == [] || cleaned == [] || structure == [])
      && (result.Some? ==> result.value == Analysis(
            |items|, items, counts, structure, AreaLists(areas, items), PagesPerSection(|structure|)))
  {
    if table.None? {
      return None;
    }
    var rows := table.value;
    var allCategories := FlattenCategories(rows, parse);
    var cleanedCategories := CleanCategories(allCategories);
    var categoryCounts := CounterOf(cleanedCategories);
    if |rows| == 0 {
      return None;
    }
    var areaCounts, categorizedItems, uncategorized := AssignAreas(areas, categoryCounts);
    if |allCategories| == 0 {
      return None;
    }
    var recommendedStructure := Structure(areas, areaCounts, uncategorized);
    if |recommendedStructure| == 0 {
      return None;
    }
    var pagesPerSection := PagesPerSection(|recommendedStructure|);
    result := Some(Analysis(|categoryCounts|, categoryCounts, areaCounts, recommendedStructure,
                            categorizedItems, pagesPerSection));
  }

  /** The run over a table read from the workbook (`None` when it could not
      be read). Every exception becomes `None`: an unreadable workbook, an
      empty table (the average divides by the row count), no mention at all
      (the area percentages divide by it) and no suggested section (the page
      split divides by it). */
  method AnalyzeCategories(table: Option<seq<SheetRow>>, parse: ListParser) returns (result: Option<Analysis>)
    ensures table.None? ==> result.None?
    ensures table.Some? ==>
      var rows := table.value;
      var cleaned := CleanAll(AllMentions(rows, parse));
      var items := CounterOf(cleaned);
      var counts := AreaCounts(ResearchAreas, items);
      var structure := Structure(ResearchAreas, counts, Uncategorized(ResearchAreas, items));
      && (result.None? <==> rows == [] || cleaned == [] || structure == [])
      && (result.Some? ==> result.value == Analysis(
            |items|, items, counts, structure, AreaLists(ResearchAreas, items), PagesPerSection(|structure|)))
  {
    result := AnalyzeWith(ResearchAreas, table, parse);
  }
}
