/** Month-over-month category trends of the dashboard
    (client/src/components/MonthlyComparisonDashboard.tsx): one trend per category of the two
    most recent buckets, ordered by the size of the percentage change, and the five biggest
    increases and decreases. */
module Trends {
  import opened Seqs
  import opened Ledger
  import opened Categories
  import opened Sorting

  datatype CategoryTrend = CategoryTrend(name: string, currentMonth: int, previousMonth: int, change: int, percentChange: real)

  /** `previous ? (change / previous) * 100 : 100`: the relative change in percent, with a
      category absent from the previous month reported as +100%. */
  function PercentChange(current: int, previous: int): real {
    if previous == 0 then 100.0 else ((current - previous) as real / previous as real) * 100.0
  }

  /** The percentage is 100 for a new category; otherwise it is the change as a share of the
      previous amount, and for a positive previous amount its sign is the sign of the change. */
  lemma PercentChangeMeaning(current: int, previous: int)
    ensures var p := PercentChange(current, previous);
      && (previous == 0 ==> p == 100.0)
      && (previous != 0 ==> p * (previous as real) == ((current - previous) as real) * 100.0)
      && (previous > 0 ==> (p > 0.0 <==> current > previous) && (p < 0.0 <==> current < previous))
  {
  }

  /** The trend of one category; an amount missing from a month counts as 0. */
  function TrendOf(name: string, current: Totals, previous: Totals): CategoryTrend {
    var currentAmount, previousAmount := Get(current, name), Get(previous, name);
    CategoryTrend(name, currentAmount, previousAmount, currentAmount - previousAmount,
                  PercentChange(currentAmount, previousAmount))
  }

  /** `new Set([...Object.keys(current), ...Object.keys(previous)])`. */
  function TrendNames(current: Totals, previous: Totals): (r: seq<string>)
    ensures NoDup(r)
    ensures forall n :: n in r <==> n in Names(current) || n in Names(previous)
  {
    DedupFacts(Names(current) + Names(previous));
    Dedup(Names(current) + Names(previous))
  }

  /** The trends of `names`, in order (the forEach with push). */
  function TrendsFor(names: seq<string>, current: Totals, previous: Totals): (r: seq<CategoryTrend>)
    ensures |r| == |names|
  {
    if names == [] then []
    else TrendsFor(names[..|names| - 1], current, previous) + [TrendOf(names[|names| - 1], current, previous)]
  }

  /** One more name adds its trend at the end. */
  lemma TrendsForSnoc(names: seq<string>, i: nat, current: Totals, previous: Totals)
    requires i < |names|
    ensures TrendsFor(names[..i + 1], current, previous)
         == TrendsFor(names[..i], current, previous) + [TrendOf(names[i], current, previous)]
  {
    assert names[..i + 1][..i] == names[..i];
  }

  /** The i-th trend is the trend of the i-th name. */
  lemma {:induction false} TrendsForAt(names: seq<string>, current: Totals, previous: Totals)
    ensures forall i :: 0 <= i < |names| ==> TrendsFor(names, current, previous)[i] == TrendOf(names[i], current, previous)
  {
    if names != [] {
      var init := names[..|names| - 1];
      TrendsForAt(init, current, previous);
      var r := TrendsFor(names, current, previous);
      forall i | 0 <= i < |names| - 1 ensures r[i] == TrendOf(names[i], current, previous) {
        assert names[i] == init[i];
      }
    }
  }

  function AbsPercentChange(t: CategoryTrend): real {
    if t.percentChange >= 0.0 then t.percentChange else -t.percentChange
  }

  /** The trends, largest |percentChange| first. */
  function SortedTrends(current: Totals, previous: Totals): (r: seq<CategoryTrend>)
    ensures SortedDesc(r, AbsPercentChange)
    ensures multiset(r) == multiset(TrendsFor(TrendNames(current, previous), current, previous))
  {
    SortDesc(TrendsFor(TrendNames(current, previous), current, previous), AbsPercentChange)
  }

  /** What a trend says, for two months whose totals hold one positive amount per category:
      every category of either month has exactly its trend, with its two amounts, change =
      current - previous, +100% when it is new, and a percentage whose sign is the sign of
      the change. */
  lemma TrendsMeaning(current: Totals, previous: Totals)
    requires AllPositive(current) && NoDup(Names(current))
    requires AllPositive(previous) && NoDup(Names(previous))
    ensures var r := SortedTrends(current, previous);
      && (forall n :: n in Names(current) || n in Names(previous) <==> TrendOf(n, current, previous) in r)
      && forall t :: t in r ==>
        && t == TrendOf(t.name, current, previous)
        && (t.name in Names(current) || t.name in Names(previous))
        && t.change == t.currentMonth - t.previousMonth
        && t.currentMonth >= 0 && t.previousMonth >= 0
        && (t.previousMonth == 0 ==> t.percentChange == 100.0 && t.currentMonth > 0)
        && (t.percentChange > 0.0 <==> t.change > 0)
        && (t.percentChange < 0.0 <==> t.change < 0)
  {
    var names := TrendNames(current, previous);
    var unsorted := TrendsFor(names, current, previous);
    var r := SortedTrends(current, previous);
    TrendsForAt(names, current, previous);
    forall t | t in r
      ensures t == TrendOf(t.name, current, previous) && t.name in names
    {
      assert t in multiset(unsorted);
      var i :| 0 <= i < |unsorted| && unsorted[i] == t;
    }
    forall n | n in names ensures TrendOf(n, current, previous) in r {
      var i :| 0 <= i < |names| && names[i] == n;
      assert unsorted[i] in multiset(r);
    }
    forall n ensures var p := PercentChange(Get(current, n), Get(previous, n));
      && (Get(previous, n) == 0 ==> p == 100.0)
      && (Get(previous, n) > 0 ==> (p > 0.0 <==> Get(current, n) > Get(previous, n)) && (p < 0.0 <==> Get(current, n) < Get(previous, n)))
    {
      PercentChangeMeaning(Get(current, n), Get(previous, n));
    }
    forall n ensures Get(current, n) >= 0 && (n in Names(current) ==> Get(current, n) > 0) {
      PositiveGet(current, n);
    }
    forall n ensures Get(previous, n) >= 0 && (n in Names(previous) ==> Get(previous, n) > 0) {
      PositiveGet(previous, n);
    }
  }

  /** In totals of positive amounts, a listed name has a positive amount, any other 0. */
  lemma PositiveGet(t: Totals, n: string)
    requires AllPositive(t) && NoDup(Names(t))
    ensures Get(t, n) >= 0 && (n in Names(t) ==> Get(t, n) > 0)
  {
    if n in Names(t) {
      var i :| 0 <= i < |t| && Names(t)[i] == n;
    }
  }

  /** The trends computation: the push loop, then the sort. */
  method BuildTrends(current: Totals, previous: Totals) returns (trends: seq<CategoryTrend>)
    ensures trends == SortedTrends(current, previous)
  {
    trends := CollectTrends(current, previous);
    trends := SortDesc(trends, AbsPercentChange);
  }

  /** The forEach over the union of category names that pushes one trend per name. */
  method CollectTrends(current: Totals, previous: Totals) returns (trends: seq<CategoryTrend>)
    ensures trends == TrendsFor(TrendNames(current, previous), current, previous)
  {
    var allCategories := TrendNames(current, previous);
    trends := [];
    for i := 0 to |allCategories|
      invariant trends == TrendsFor(allCategories[..i], current, previous)
    {
      var category := allCategories[i];
      var currentAmount := Get(current, category);
      var previousAmount := Get(previous, category);
      var change := currentAmount - previousAmount;
      var percentChange := PercentChange(currentAmount, previousAmount);
      ghost var trend := TrendOf(category, current, previous);
      assert CategoryTrend(category, currentAmount, previousAmount, change, percentChange) == trend;
      trends := trends + [CategoryTrend(category, currentAmount, previousAmount, change, percentChange)];
      TrendsForSnoc(allCategories, i, current, previous);
    }
    assert allCategories[..|allCategories|] == allCategories;
  }

  predicate Rising(t: CategoryTrend) {
    t.percentChange > 0.0
  }

  predicate Falling(t: CategoryTrend) {
    t.percentChange < 0.0
  }

  /** `trends.filter(p).slice(0, 5)`. */
  function FirstFive(trends: seq<CategoryTrend>, p: CategoryTrend -> bool): (r: seq<CategoryTrend>)
    ensures |r| == if |Filter(trends, p)| <= 5 then |Filter(trends, p)| else 5
    ensures r == Filter(trends, p)[..|r|]
    ensures forall t :: t in r ==> t in trends && p(t)
  {
    var matching := Filter(trends, p);
    if |matching| <= 5 then matching
    else
      assert forall i :: 0 <= i < 5 ==> matching[..5][i] in matching;
      matching[..5]
  }

  /** The biggest increases shown. */
  function Increases(trends: seq<CategoryTrend>): (r: seq<CategoryTrend>)
    ensures |r| == if |Filter(trends, Rising)| <= 5 then |Filter(trends, Rising)| else 5
    ensures r == Filter(trends, Rising)[..|r|]
    ensures forall t :: t in r ==> t in trends && t.percentChange > 0.0
  {
    FirstFive(trends, Rising)
  }

  /** The biggest decreases shown. */
  function Decreases(trends: seq<CategoryTrend>): (r: seq<CategoryTrend>)
    ensures |r| == if |Filter(trends, Falling)| <= 5 then |Filter(trends, Falling)| else 5
    ensures r == Filter(trends, Falling)[..|r|]
    ensures forall t :: t in r ==> t in trends && t.percentChange < 0.0
  {
    FirstFive(trends, Falling)
  }

  /** On sorted trends the five shown are the largest of their kind: they stay in order, no
      matching trend left out has a larger |percentChange|, and with five or fewer matching
      trends all of them are shown. */
  lemma FirstFiveAreLargest(trends: seq<CategoryTrend>, p: CategoryTrend -> bool)
    requires SortedDesc(trends, AbsPercentChange)
    ensures var r, matching := FirstFive(trends, p), Filter(trends, p);
      && SortedDesc(r, AbsPercentChange)
      && |r| == (if |matching| <= 5 then |matching| else 5)
      && r == matching[..|r|]
      && (|matching| <= 5 ==> r == matching)
      && forall i, u :: 0 <= i < |r| && u in matching[|r|..] ==> AbsPercentChange(r[i]) >= AbsPercentChange(u)
  {
    var matching := Filter(trends, p);
    var r := FirstFive(trends, p);
    FilterKeepsSorted(trends, p, AbsPercentChange);
    assert r == matching[..|r|];
    SortedPrefix(matching, |r|, AbsPercentChange);
  }
}
