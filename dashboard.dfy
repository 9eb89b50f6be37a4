/** The state of the monthly comparison dashboard
    (client/src/components/MonthlyComparisonDashboard.tsx) and the effect that recomputes it
    when the transactions or the fixed categories change. */
module Dashboard {
  import opened Wrappers
  import opened Seqs
  import opened Sorting
  import opened Ledger
  import opened Transactions
  import opened Aggregation
  import opened Monthly
  import opened Trends

  /** The two pieces of state the effect writes. */
  datatype View = View(monthlyData: seq<MonthlyData>, categoryTrends: seq<CategoryTrend>)

  /** The effect: nothing happens without transactions; otherwise the buckets are rebuilt
      and sorted, and the trends are recomputed from the first two buckets. */
  function RefreshStep(v: View, ts: seq<Transaction>, fixed: seq<string>, today: Date): (r: View)
    ensures ts == [] ==> r == v
  {
    if ts == [] then v
    else
      var months := SortMonths(MonthBuckets(ts, today, fixed));
      View(months, if |months| >= 2 then SortedTrends(months[0].categories, months[1].categories) else v.categoryTrends)
  }

  /** The sorted buckets begin with two month buckets, and no other month bucket is later
      than the second. */
  lemma FirstTwoAreLatest(bs: seq<MonthlyData>)
    requires |bs| >= 2 && IsDated(bs[0]) && IsDated(bs[1])
    ensures var r := SortMonths(bs);
      && |r| >= 2 && IsDated(r[0]) && IsDated(r[1])
      && MonthRank(r[0]) >= MonthRank(r[1])
      && forall j :: 2 <= j < |r| && IsDated(r[j]) ==> MonthRank(r[1]) >= MonthRank(r[j])
  {
    TwoDated(bs);
    SortMonthsParts(bs);
    var r, sorted := SortMonths(bs), SortDesc(Filter(bs, IsDated), MonthRank);
    assert r[0] == sorted[0];
    assert r[1] == sorted[1];
  }

  lemma TwoDated(bs: seq<MonthlyData>)
    requires |bs| >= 2 && IsDated(bs[0]) && IsDated(bs[1])
    ensures |Filter(bs, IsDated)| >= 2
  {
    assert bs[1..][0] == bs[1];
  }

  /** What the refreshed dashboard shows, given at least one transaction: at least the six
      trailing months; every bucket the analysis of its month's expenses; the two most recent
      month buckets compared; and each trend's two amounts the spending in its category in
      those two months, with a trend for exactly the categories spent in in either month. */
  lemma RefreshMeaning(v: View, ts: seq<Transaction>, fixed: seq<string>, today: Date)
    requires ts != []
    ensures var r := RefreshStep(v, ts, fixed, today);
      var months := r.monthlyData;
      && multiset(months) == multiset(MonthBuckets(ts, today, fixed))
      && |months| >= 6
      && (forall j :: 0 <= j < |months| ==> BucketIsMonth(months[j], ts, fixed, MonthOf))
      && IsDated(months[0]) && IsDated(months[1])
      && MonthRank(months[0]) >= MonthRank(months[1])
      && (forall j :: 2 <= j < |months| && IsDated(months[j]) ==> MonthRank(months[1]) >= MonthRank(months[j]))
      && r.categoryTrends == SortedTrends(months[0].categories, months[1].categories)
      && var current, previous := InMonth(ts, months[0].key, MonthOf), InMonth(ts, months[1].key, MonthOf);
      && (forall c :: HasExpenseIn(current, c) || HasExpenseIn(previous, c) <==>
            TrendOf(c, months[0].categories, months[1].categories) in r.categoryTrends)
      && forall t :: t in r.categoryTrends ==>
            t.currentMonth == CategorySpend(current, t.name) && t.previousMonth == CategorySpend(previous, t.name)
  {
    var bs := MonthBuckets(ts, today, fixed);
    var months := SortMonths(bs);
    MonthBucketsAreMonthlyAnalyses(ts, today, fixed);
    FillKeepsPrefixKeys(Seed(TrailingMonths(today)), ts, fixed, MonthOf);
    assert |months| >= 6 by {
      assert |multiset(months)| == |multiset(bs)|;
    }
    forall j | 0 <= j < |months| ensures BucketIsMonth(months[j], ts, fixed, MonthOf) {
      assert months[j] in multiset(bs);
    }
    // The first two buckets are the two latest seeded months.
    assert IsDated(bs[0]) && IsDated(bs[1]);
    FirstTwoAreLatest(bs);
    var cur, prev := months[0], months[1];
    var current, previous := InMonth(ts, cur.key, MonthOf), InMonth(ts, prev.key, MonthOf);
    TotalsAreCategorySums(current, fixed);
    TotalsAreCategorySums(previous, fixed);
    TrendsMeaning(cur.categories, prev.categories);
  }

  /** Processing transactions keeps the keys of the buckets already there. */
  lemma {:induction false} FillKeepsPrefixKeys(bs: seq<MonthlyData>, ts: seq<Transaction>, fixed: seq<string>,
                                               monthOf: Transaction -> Option<MonthKey>)
    ensures var r := Fill(bs, ts, fixed, monthOf);
      |r| >= |bs| && forall j :: 0 <= j < |bs| ==> r[j].key == bs[j].key
  {
    if ts != [] {
      FillKeepsPrefixKeys(bs, ts[..|ts| - 1], fixed, monthOf);
    }
  }

  /** The component's state. */
  class MonthlyComparisonDashboard {
    var monthlyData: seq<MonthlyData>
    var categoryTrends: seq<CategoryTrend>

    ghost function State(): View
      reads this
    {
      View(monthlyData, categoryTrends)
    }

    constructor()
      ensures State() == View([], [])
    {
      monthlyData := [];
      categoryTrends := [];
    }

    /** The useEffect on [transactions, fixedCategories]; `today` is the clock's date. */
    method Refresh(transactions: seq<Transaction>, fixedCategories: seq<string>, today: Date)
      modifies this
      ensures State() == RefreshStep(old(State()), transactions, fixedCategories, today)
    {
      if |transactions| == 0 {
        return;
      }
      var monthData := BuildMonthlyData(transactions, today, fixedCategories);
      var sortedMonthlyData := SortMonths(monthData);
      monthlyData := sortedMonthlyData;
      if |sortedMonthlyData| >= 2 {
        var trends := BuildTrends(sortedMonthlyData[0].categories, sortedMonthlyData[1].categories);
        categoryTrends := trends;
      }
    }
  }
}
