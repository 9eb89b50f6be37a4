/** The older variant of the engine (attached_assets/fixed-spending-tracker.ts). It shares the
    live page's filter and analysis, with three differences: an import replaces the
    transaction list instead of appending to it; a category reassignment finds the full-list
    row by all five identifying fields; and flagging or marking for review MOVES the row into
    the special category instead of copying it. Its fixed categories are the constant
    default list, and it prepares the chart data shown beside the totals. */
module LegacyTracker {
  import opened Wrappers
  import opened Text
  import opened Seqs
  import opened Ledger
  import opened Transactions
  import opened Aggregation
  import opened Categories
  import opened Sorting
  import Tracker

  type State = Tracker.TrackerState

  const InitialState: State := Tracker.InitialState

  /** The `complete` callback of parseCSV, followed by the effect on the date bounds: unset
      bounds default to the month up to `today`; the parsed rows REPLACE the transaction
      list; the category list is built from them; the view is re-filtered. The callback's own
      filter sees the bounds from before the import, so it does nothing when the end date was
      unset; the bounds then change, and the effect filters the new list only when it is not
      empty. */
  function ImportStep(s: State, parsed: seq<Transaction>, today: Date): State {
    var stored := Replace(Tracker.DefaultBounds(s, today), parsed);
    if s.endDate.None? && parsed == [] then stored else Tracker.FilterStep(stored, parsed)
  }

  /** After an import the full list is exactly the parsed rows; the category list has no
      duplicates and holds exactly their categories, the three special ones and the fixed
      ones; unset bounds become the month up to `today`; and the view is the in-range part
      of the parsed rows, analysed. */
  lemma ImportMeaning(s: State, parsed: seq<Transaction>, today: Date)
    ensures var r := ImportStep(s, parsed, today);
      && r.transactions == parsed
      && r.fixedCategories == s.fixedCategories
      && NoDup(r.availableCategories)
      && (forall c :: c in r.availableCategories <==>
            Mentions(parsed, c) || c == Uncategorized || c == ReviewLater
            || c == FlaggedForReview || c in s.fixedCategories)
      && (s.endDate.None? ==> r.endDate == Some(today) && r.startDate == Some(Tracker.OneMonthBefore(today)))
      && (s.endDate.Some? ==> r.endDate == s.endDate && r.startDate == s.startDate)
      && (r.startDate.Some? && r.endDate.Some? && (s.endDate.Some? || parsed != []) ==>
            Tracker.Analyzed(r) && r.filtered == FilterByDate(parsed, r.startDate.value, r.endDate.value))
      && (s.endDate.None? && parsed == [] ==> r.filtered == s.filtered && r.summary == s.summary)
  {
    CategoryListContents(parsed, s.fixedCategories);
  }

  /** The parsed rows and the category list built from them, before filtering. */
  function Replace(s: State, parsed: seq<Transaction>): State {
    s.(availableCategories := CategoryList(parsed, s.fixedCategories), transactions := parsed)
  }

  /** The index in `ts` of the first row equal to `t` in date, description, amount, type and
      memo. */
  function MatchingRecordIndex(ts: seq<Transaction>, t: Transaction): (r: Option<nat>)
    ensures r.Some? ==> r.value < |ts| && SameRecord(ts[r.value], t)
    ensures r.Some? ==> forall j :: 0 <= j < r.value ==> !SameRecord(ts[j], t)
    ensures r.None? <==> forall j :: 0 <= j < |ts| ==> !SameRecord(ts[j], t)
  {
    FindIndex(ts, u => SameRecord(u, t))
  }

  /** updateTransactionCategory(i, c): an index outside the view changes nothing; otherwise
      only the category of the i-th row of the view changes, and in the full list only the
      category of the first row identical to it in all five identifying fields. */
  function UpdateCategoryStep(s: State, i: int, c: string): (r: State)
    ensures i < 0 || i >= |s.filtered| ==> r == s
    ensures r.availableCategories == s.availableCategories && r.fixedCategories == s.fixedCategories
    ensures r.startDate == s.startDate && r.endDate == s.endDate
    ensures |r.filtered| == |s.filtered| && |r.transactions| == |s.transactions|
    ensures 0 <= i < |s.filtered| ==>
      var shown := s.filtered[i];
      && r.filtered == s.filtered[i := WithCategory(shown, c)]
      && Tracker.Analyzed(r)
      && (MatchingRecordIndex(s.transactions, shown).None? ==> r.transactions == s.transactions)
      && forall k :: 0 <= k < |s.transactions| ==>
           if Some(k) == MatchingRecordIndex(s.transactions, shown)
           then r.transactions[k] == WithCategory(s.transactions[k], c)
           else r.transactions[k] == s.transactions[k]
  {
    if i < 0 || i >= |s.filtered| then s
    else
      var shown := s.filtered[i];
      var filtered := s.filtered[i := WithCategory(shown, c)];
      var all := match MatchingRecordIndex(s.transactions, shown)
        case None => s.transactions
        case Some(j) => s.transactions[j := WithCategory(s.transactions[j], c)];
      s.(filtered := filtered, transactions := all, summary := Analyze(filtered, s.fixedCategories))
  }

  /** The shown row itself is always found when it is still in the full list. */
  lemma UpdateFindsShownRow(s: State, i: int, c: string)
    requires 0 <= i < |s.filtered| && s.filtered[i] in s.transactions
    ensures var j := MatchingRecordIndex(s.transactions, s.filtered[i]);
      && j.Some?
      && UpdateCategoryStep(s, i, c).transactions[j.value] == WithCategory(s.transactions[j.value], c)
  {
    var k :| 0 <= k < |s.transactions| && s.transactions[k] == s.filtered[i];
    assert SameRecord(s.transactions[k], s.filtered[i]);
  }

  /** Moving a row into another category keeps the grand total and moves the row's
      magnitude between the two category totals; the view keeps its length. */
  function MoveStep(s: State, i: int, c: string): (r: State)
    ensures i < 0 || i >= |s.filtered| ==> r == s
    ensures 0 <= i < |s.filtered| ==>
      && |r.filtered| == |s.filtered|
      && CategoryOf(r.filtered[i]) == (if c == "" then Uncategorized else c)
      && SameRecord(r.filtered[i], s.filtered[i])
    ensures 0 <= i < |s.filtered| && Tracker.Analyzed(s) ==>
      var t := s.filtered[i];
      && r.summary.fixedTotal + r.summary.flexibleTotal == s.summary.fixedTotal + s.summary.flexibleTotal
      && forall x :: Get(r.summary.categoryTotals, x) ==
           Get(s.summary.categoryTotals, x) - Spent(t, x) + Spent(WithCategory(t, c), x)
  {
    if 0 <= i < |s.filtered| then
      RecategorizeMovesSpending(s.filtered, i, WithCategory(s.filtered[i], c), s.fixedCategories);
      UpdateCategoryStep(s, i, c)
    else s
  }

  /** moveToReviewLater(i): the row moves into 'Review Later'. */
  function MoveToReviewLaterStep(s: State, i: int): (r: State)
    ensures r == MoveStep(s, i, ReviewLater)
    ensures 0 <= i < |s.filtered| ==> CategoryOf(r.filtered[i]) == ReviewLater
  {
    MoveStep(s, i, ReviewLater)
  }

  /** flagTransaction(i): the row moves into 'Flagged for Review'; unlike the live page, no
      copy is made and the grand total is unchanged. */
  function FlagStep(s: State, i: int): (r: State)
    ensures r == MoveStep(s, i, FlaggedForReview)
    ensures 0 <= i < |s.filtered| ==> CategoryOf(r.filtered[i]) == FlaggedForReview
  {
    MoveStep(s, i, FlaggedForReview)
  }

  /** addNewCategory(name): a name blank after trimming, or already listed (untrimmed,
      case-sensitive), changes nothing; otherwise it is appended to the category list. */
  function AddNewCategoryStep(s: State, name: string): (r: State)
    ensures IsBlank(name) || name in s.availableCategories ==> r == s
    ensures !IsBlank(name) && name !in s.availableCategories ==>
      r == s.(availableCategories := s.availableCategories + [name])
    ensures NoDup(s.availableCategories) ==> NoDup(r.availableCategories)
    ensures forall c :: c in r.availableCategories <==> c in s.availableCategories || (c == name && !IsBlank(name))
  {
    if Trim(name) == "" then s
    else if name in s.availableCategories then s
    else s.(availableCategories := s.availableCategories + [name])
  }

  /** getCategoryTransactions: the expenses of the view in the selected category; nothing
      while no category (or the empty name) is selected. */
  function CategoryTransactions(s: State, selected: Option<string>): (r: seq<Transaction>)
    ensures selected.None? || selected == Some("") ==> r == []
    ensures selected.Some? && selected.value != "" ==>
      forall t :: t in r <==> t in s.filtered && IsExpense(t) && CategoryOf(t) == selected.value
  {
    if selected.None? || selected.value == "" then [] else CategoryExpenses(s.filtered, selected.value)
  }

  predicate IsExpenseOf(t: Transaction, c: string) {
    IsExpense(t) && CategoryOf(t) == c
  }

  function ExpenseOf(c: string): Transaction -> bool {
    t => IsExpenseOf(t, c)
  }

  /** The expenses of `ts` in category `c`, in their original order. */
  function CategoryExpenses(ts: seq<Transaction>, c: string): (r: seq<Transaction>)
    ensures forall t :: t in r <==> t in ts && IsExpense(t) && CategoryOf(t) == c
  {
    Filter(ts, ExpenseOf(c))
  }

  lemma CategoryExpensesSnoc(ts: seq<Transaction>, t: Transaction, c: string)
    ensures CategoryExpenses(ts + [t], c) == CategoryExpenses(ts, c) + if IsExpenseOf(t, c) then [t] else []
  {
    FilterSnoc(ts, t, ExpenseOf(c));
  }

  lemma ExpenseSumSnoc(ts: seq<Transaction>, t: Transaction)
    ensures ExpenseSum(ts + [t]) == ExpenseSum(ts) + if IsExpense(t) then Magnitude(t) else 0
  {
    assert (ts + [t])[..|ts|] == ts;
  }

  /** The expenses of a category sum to that category's expense total. */
  lemma {:induction false} CategoryExpensesSum(ts: seq<Transaction>, c: string)
    ensures ExpenseSum(CategoryExpenses(ts, c)) == CategorySpend(ts, c)
  {
    if ts != [] {
      var front, last := ts[..|ts| - 1], ts[|ts| - 1];
      assert ts == front + [last];
      CategoryExpensesSum(front, c);
      CategoryExpensesSnoc(front, last, c);
      assert CategorySpend(ts, c) == CategorySpend(front, c) + Spent(last, c);
      if IsExpenseOf(last, c) {
        ExpenseSumSnoc(CategoryExpenses(front, c), last);
      } else {
        assert CategoryExpenses(front, c) + [] == CategoryExpenses(front, c);
      }
    }
  }

  /** The list shown for a selected category adds up to the total shown for it. */
  lemma CategoryTransactionsMatchTotal(s: State, c: string)
    requires Tracker.Analyzed(s) && c != ""
    ensures ExpenseSum(CategoryTransactions(s, Some(c))) == Get(s.summary.categoryTotals, c)
  {
    CategoryExpensesSum(s.filtered, c);
    TotalsMatchSpend(s.filtered, s.fixedCategories, c);
  }

  /** How the category chart styles a category: fixed first, then the two review
      categories, and flexible otherwise. */
  datatype ChartKind = FixedKind | ReviewKind | FlaggedKind | FlexibleKind

  function KindOf(name: string, fixed: seq<string>): (k: ChartKind)
    ensures k == FixedKind <==> name in fixed
    ensures k == ReviewKind <==> name !in fixed && name == ReviewLater
    ensures k == FlaggedKind <==> name !in fixed && name == FlaggedForReview
  {
    if name in fixed then FixedKind
    else if name == ReviewLater then ReviewKind
    else if name == FlaggedForReview then FlaggedKind
    else FlexibleKind
  }

  datatype CategoryDatum = CategoryDatum(name: string, value: int, kind: ChartKind)
  datatype TypeDatum = TypeDatum(name: string, value: int)

  /** The entries of the category totals in order, each with its chart kind. */
  function Datums(t: Totals, fixed: seq<string>): (r: seq<CategoryDatum>)
    ensures |r| == |t|
    ensures forall i :: 0 <= i < |t| ==> r[i] == CategoryDatum(t[i].name, t[i].amount, KindOf(t[i].name, fixed))
  {
    if t == [] then [] else [CategoryDatum(t[0].name, t[0].amount, KindOf(t[0].name, fixed))] + Datums(t[1..], fixed)
  }

  function DatumValue(d: CategoryDatum): real {
    d.value as real
  }

  /** categoryData: one datum per category, largest value first. */
  function CategoryData(t: Totals, fixed: seq<string>): (r: seq<CategoryDatum>)
    ensures SortedDesc(r, DatumValue)
    ensures multiset(r) == multiset(Datums(t, fixed))
  {
    SortDesc(Datums(t, fixed), DatumValue)
  }

  /** The slices' place in the chart: Fixed first, then Flexible, Review Later and Flagged. */
  function ChartRank(d: TypeDatum): real {
    if d.name == "Fixed" then 4.0
    else if d.name == "Flexible" then 3.0
    else if d.name == "Review Later" then 2.0
    else if d.name == "Flagged" then 1.0
    else 0.0
  }

  /** The four slices before the filter: the fixed and flexible totals, then the totals of
      the review-later and flagged categories (0 when absent), in chart order. */
  function TypeSlices(s: SpendingSummary): (r: seq<TypeDatum>)
    ensures |r| == 4 && StrictlyDesc(r, ChartRank)
    ensures r[0].name == "Fixed" && r[0].value == s.fixedTotal
    ensures r[1].name == "Flexible" && r[1].value == s.flexibleTotal
    ensures r[2].name == "Review Later" && r[2].value == Get(s.categoryTotals, ReviewLater)
    ensures r[3].name == "Flagged" && r[3].value == Get(s.categoryTotals, FlaggedForReview)
  {
    // The four names differ in length, hence from each other.
    assert |"Fixed"| == 5 && |"Flexible"| == 8 && |"Review Later"| == 12 && |"Flagged"| == 7;
    [TypeDatum("Fixed", s.fixedTotal), TypeDatum("Flexible", s.flexibleTotal),
     TypeDatum("Review Later", Get(s.categoryTotals, ReviewLater)),
     TypeDatum("Flagged", Get(s.categoryTotals, FlaggedForReview))]
  }

  function IsShown(d: TypeDatum): bool {
    d.value > 0
  }

  /** typeData: exactly the slices with a positive value, still in chart order. */
  function TypeData(s: SpendingSummary): (r: seq<TypeDatum>)
    ensures forall d :: d in r <==> d in TypeSlices(s) && d.value > 0
    ensures StrictlyDesc(r, ChartRank)
  {
    FilterKeepsStrictlyDesc(TypeSlices(s), IsShown, ChartRank);
    Filter(TypeSlices(s), IsShown)
  }

  function SliceSum(ds: seq<TypeDatum>): int {
    if ds == [] then 0 else ds[0].value + SliceSum(ds[1..])
  }

  /** The four slices add up to the two totals plus the two review totals. */
  lemma SlicesTotal(s: SpendingSummary)
    ensures SliceSum(TypeSlices(s)) ==
      s.fixedTotal + s.flexibleTotal + Get(s.categoryTotals, ReviewLater) + Get(s.categoryTotals, FlaggedForReview)
  {
    var ds := TypeSlices(s);
    assert ds[3..][1..] == [];
    assert SliceSum(ds[3..]) == ds[3].value;
    assert SliceSum(ds[2..]) == ds[2].value + SliceSum(ds[2..][1..]) by { assert ds[2..][1..] == ds[3..]; }
    assert SliceSum(ds[1..]) == ds[1].value + SliceSum(ds[1..][1..]) by { assert ds[1..][1..] == ds[2..]; }
  }

  /** Dropping the slices that are not positive leaves the sum of non-negative slices. */
  lemma {:induction false} ShownSliceSum(ds: seq<TypeDatum>)
    requires forall i :: 0 <= i < |ds| ==> ds[i].value >= 0
    ensures SliceSum(Filter(ds, IsShown)) == SliceSum(ds)
  {
    if ds != [] {
      ShownSliceSum(ds[1..]);
    }
  }

  /** With no negative slice, the shown slices add up to all four. */
  lemma ShownTypeDataSum(s: SpendingSummary)
    requires s.fixedTotal >= 0 && s.flexibleTotal >= 0
    requires Get(s.categoryTotals, ReviewLater) >= 0 && Get(s.categoryTotals, FlaggedForReview) >= 0
    ensures SliceSum(TypeData(s)) ==
      s.fixedTotal + s.flexibleTotal + Get(s.categoryTotals, ReviewLater) + Get(s.categoryTotals, FlaggedForReview)
  {
    var slices := TypeSlices(s);
    assert forall i :: 0 <= i < |slices| ==> slices[i].value >= 0 by {
      assert slices[0].value == s.fixedTotal && slices[1].value == s.flexibleTotal;
    }
    ShownSliceSum(slices);
    SlicesTotal(s);
  }

  /** The flexible total already contains both review categories when neither is fixed. */
  lemma {:induction false} FlexibleCoversReview(ts: seq<Transaction>, fixed: seq<string>)
    requires ReviewLater !in fixed && FlaggedForReview !in fixed
    ensures ExpenseSum(ts) - FixedSpend(ts, fixed) >= CategorySpend(ts, ReviewLater) + CategorySpend(ts, FlaggedForReview)
    ensures CategorySpend(ts, ReviewLater) >= 0 && CategorySpend(ts, FlaggedForReview) >= 0
  {
    if ts != [] {
      FlexibleCoversReview(ts[..|ts| - 1], fixed);
    }
  }

  /** The fixed/flexible chart counts review spending twice: its slices add up to the total
      spending plus the 'Review Later' and 'Flagged for Review' totals, both of which are
      already inside the flexible slice. */
  lemma TypeDataCountsReviewTwice(s: State)
    requires Tracker.Analyzed(s) && s.fixedCategories == DefaultFixedCategories
    ensures var sum := s.summary;
      var review, flagged := Get(sum.categoryTotals, ReviewLater), Get(sum.categoryTotals, FlaggedForReview);
      && SliceSum(TypeData(sum)) == sum.fixedTotal + sum.flexibleTotal + review + flagged
      && sum.flexibleTotal >= review + flagged
  {
    var sum := s.summary;
    SummaryConservation(s.filtered, s.fixedCategories);
    FixedFlexibleSplit(s.filtered, s.fixedCategories);
    TotalsMatchSpend(s.filtered, s.fixedCategories, ReviewLater);
    TotalsMatchSpend(s.filtered, s.fixedCategories, FlaggedForReview);
    FlexibleCoversReview(s.filtered, s.fixedCategories);
    ShownTypeDataSum(sum);
  }

  /** prepareChartData, guarded by hasData: both lists are empty while the view is empty. */
  function ChartData(s: State): (r: (seq<CategoryDatum>, seq<TypeDatum>))
    ensures |s.filtered| == 0 ==> r == ([], [])
    ensures |s.filtered| > 0 ==>
      && SortedDesc(r.0, DatumValue)
      && multiset(r.0) == multiset(Datums(s.summary.categoryTotals, s.fixedCategories))
      && forall d :: d in r.1 <==> d in TypeSlices(s.summary) && d.value > 0
  {
    if |s.filtered| > 0 then (CategoryData(s.summary.categoryTotals, s.fixedCategories), TypeData(s.summary))
    else ([], [])
  }

  /** The older page's session; its fixed categories are the constant default list. */
  class LegacySpendingTracker {
    var transactions: seq<Transaction>
    var filteredTransactions: seq<Transaction>
    var categoryTotals: Totals
    var fixedTotal: int
    var flexibleTotal: int
    var availableCategories: seq<string>
    var startDate: Option<Date>
    var endDate: Option<Date>
    const fixedCategories: seq<string>

    ghost function State(): State
      reads this
    {
      Tracker.TrackerState(transactions, filteredTransactions, SpendingSummary(categoryTotals, fixedTotal, flexibleTotal),
        availableCategories, fixedCategories, startDate, endDate)
    }

    ghost predicate Valid()
      reads this
    {
      NoDup(availableCategories)
    }

    constructor ()
      ensures Valid() && State() == InitialState
    {
      transactions, filteredTransactions := [], [];
      categoryTotals, fixedTotal, flexibleTotal := [], 0, 0;
      availableCategories := [];
      startDate, endDate := None, None;
      fixedCategories := DefaultFixedCategories;
    }

    method AnalyzeTransactions(ts: seq<Transaction>)
      modifies this
      ensures State() == old(State()).(summary := Analyze(ts, fixedCategories))
    {
      var summary := Aggregation.AnalyzeTransactions(ts, fixedCategories);
      categoryTotals, fixedTotal, flexibleTotal := summary.categoryTotals, summary.fixedTotal, summary.flexibleTotal;
    }

    method FilterTransactionsByDate(all: seq<Transaction>)
      modifies this
      ensures State() == Tracker.FilterStep(old(State()), all)
    {
      if startDate.None? || endDate.None? {
        return;
      }
      var filtered := FilterByDate(all, startDate.value, endDate.value);
      filteredTransactions := filtered;
      AnalyzeTransactions(filtered);
    }

    /** With no end date, the bounds become the month up to `today`. */
    method SetDefaultBounds(today: Date)
      modifies this
      ensures State() == Tracker.DefaultBounds(old(State()), today)
    {
      if endDate.None? {
        endDate := Some(today);
        startDate := Some(Tracker.OneMonthBefore(today));
      }
    }

    /** The parsed rows replace the list, and the category list is built from them. */
    method StoreParsed(parsed: seq<Transaction>)
      modifies this
      ensures NoDup(availableCategories)
      ensures State() == Replace(old(State()), parsed)
    {
      var categories := BuildCategoryList(parsed, fixedCategories);
      availableCategories := categories;
      transactions := parsed;
    }

    /** The `complete` callback of parseCSV, with the parsed rows and the current date. */
    method ImportTransactions(parsed: seq<Transaction>, today: Date)
      requires Valid()
      modifies this
      ensures Valid() && State() == ImportStep(old(State()), parsed, today)
    {
      var endWasSet := endDate.Some?;
      SetDefaultBounds(today);
      StoreParsed(parsed);
      if endWasSet || |parsed| > 0 {
        // The callback's filter with the unchanged bounds, or else the effect on the new ones.
        FilterTransactionsByDate(parsed);
      }
    }

    method SetDateRange(start: Option<Date>, end: Option<Date>)
      requires Valid()
      modifies this
      ensures Valid() && State() == Tracker.SetDateRangeStep(old(State()), start, end)
    {
      startDate, endDate := start, end;
      if |transactions| > 0 {
        FilterTransactionsByDate(transactions);
      }
    }

    method UpdateTransactionCategory(transactionIndex: int, newCategory: string)
      requires Valid()
      modifies this
      ensures Valid() && State() == UpdateCategoryStep(old(State()), transactionIndex, newCategory)
    {
      if transactionIndex < 0 || transactionIndex >= |filteredTransactions| {
        return;
      }
      var updatedFiltered := filteredTransactions;
      var updatedAll := transactions;
      var transaction := updatedFiltered[transactionIndex];
      updatedFiltered := updatedFiltered[transactionIndex := WithCategory(transaction, newCategory)];
      var globalIndex := MatchingRecordIndex(updatedAll, transaction);
      if globalIndex.Some? {
        updatedAll := updatedAll[globalIndex.value := WithCategory(updatedAll[globalIndex.value], newCategory)];
      }
      filteredTransactions := updatedFiltered;
      transactions := updatedAll;
      AnalyzeTransactions(updatedFiltered);
    }

    method MoveToReviewLater(transactionIndex: int)
      requires Valid()
      modifies this
      ensures Valid() && State() == MoveToReviewLaterStep(old(State()), transactionIndex)
    {
      if transactionIndex < 0 || transactionIndex >= |filteredTransactions| {
        return;
      }
      UpdateTransactionCategory(transactionIndex, ReviewLater);
    }

    method FlagTransaction(transactionIndex: int)
      requires Valid()
      modifies this
      ensures Valid() && State() == FlagStep(old(State()), transactionIndex)
    {
      if transactionIndex < 0 || transactionIndex >= |filteredTransactions| {
        return;
      }
      UpdateTransactionCategory(transactionIndex, FlaggedForReview);
    }

    method AddNewCategory(newCategoryName: string)
      requires Valid()
      modifies this
      ensures Valid() && State() == AddNewCategoryStep(old(State()), newCategoryName)
    {
      if Trim(newCategoryName) == "" {
        return;
      }
      if newCategoryName !in availableCategories {
        availableCategories := availableCategories + [newCategoryName];
      }
    }
  }
}
