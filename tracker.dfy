/** The transaction engine of the live page (client/src/pages/SpendingTracker.tsx): the full
    transaction list, the date-filtered view, the category analysis of the view, the category
    lists and the date bounds, and the operations that change them. */
module Tracker {
  import opened Wrappers
  import opened Text
  import opened Seqs
  import opened Ledger
  import opened Transactions
  import opened Aggregation
  import opened Categories

  /** The session's state as a value. A bound of None is an unset date input. */
  datatype TrackerState = TrackerState(
    transactions: seq<Transaction>,
    filtered: seq<Transaction>,
    summary: SpendingSummary,
    availableCategories: seq<string>,
    fixedCategories: seq<string>,
    startDate: Option<Date>,
    endDate: Option<Date>)

  const InitialState := TrackerState([], [], EmptySummary, [], DefaultFixedCategories, None, None)

  /** The analysis shown is the analysis of the filtered view. */
  predicate Analyzed(s: TrackerState) {
    s.summary == Analyze(s.filtered, s.fixedCategories)
  }

  /** The index in `ts` of the first transaction with the same date, description and amount. */
  function MatchingIndex(ts: seq<Transaction>, t: Transaction): (r: Option<nat>)
    ensures r.Some? ==> r.value < |ts| && SameKey(ts[r.value], t)
    ensures r.Some? ==> forall j :: 0 <= j < r.value ==> !SameKey(ts[j], t)
    ensures r.None? <==> forall j :: 0 <= j < |ts| ==> !SameKey(ts[j], t)
  {
    FindIndex(ts, u => SameKey(u, t))
  }

  /** filterTransactionsByDate(all): a no-op while a bound is unset; otherwise the view
      becomes the in-range transactions of `all` and is re-analysed. */
  function FilterStep(s: TrackerState, all: seq<Transaction>): (r: TrackerState)
    ensures s.startDate.None? || s.endDate.None? ==> r == s
    ensures r.transactions == s.transactions && r.availableCategories == s.availableCategories
    ensures r.fixedCategories == s.fixedCategories
    ensures r.startDate == s.startDate && r.endDate == s.endDate
    ensures s.startDate.Some? && s.endDate.Some? ==>
      && r.filtered == FilterByDate(all, s.startDate.value, s.endDate.value)
      && (forall t :: t in r.filtered <==> t in all && InRange(t, s.startDate.value, s.endDate.value))
      && Analyzed(r)
  {
    if s.startDate.None? || s.endDate.None? then s
    else
      var filtered := FilterByDate(all, s.startDate.value, s.endDate.value);
      s.(filtered := filtered, summary := Analyze(filtered, s.fixedCategories))
  }

  /** Filtering the filtered view again with the same bounds changes nothing. */
  lemma RefilterViewChangesNothing(s: TrackerState, all: seq<Transaction>)
    ensures var r := FilterStep(s, all); FilterStep(r, r.filtered) == r
  {
    if s.startDate.Some? && s.endDate.Some? {
      FilterByDateIdempotent(all, s.startDate.value, s.endDate.value);
    }
  }

  /** The first day of the default range: the same day one month before `today`. */
  function OneMonthBefore(today: Date): (d: Date)
    ensures d.day == today.day
    ensures 1 <= today.month <= 12 ==>
      1 <= d.month <= 12 && d.year * 12 + d.month == today.year * 12 + today.month - 1
  {
    if today.month <= 1 then Date(today.year - 1, 12, today.day)
    else Date(today.year, today.month - 1, today.day)
  }

  /** The `complete` callback of parseCSV for rows `parsed`: unset bounds default to the month
      up to `today`; the rows are appended; the category list is rebuilt from the combined
      list; the view is re-filtered. */
  function ImportStep(s: TrackerState, parsed: seq<Transaction>, today: Date): TrackerState {
    FilterStep(StoreImport(DefaultBounds(s, today), parsed), s.transactions + parsed)
  }

  /** After an import the full list is the old one followed by the parsed rows; the category
      list has no duplicates and holds exactly the categories of that list, the three special
      ones and the fixed ones; unset bounds become the month up to `today`; and the view is
      the in-range part of the full list, analysed. */
  lemma ImportMeaning(s: TrackerState, parsed: seq<Transaction>, today: Date)
    ensures var r := ImportStep(s, parsed, today);
      && r.transactions == s.transactions + parsed
      && r.fixedCategories == s.fixedCategories
      && NoDup(r.availableCategories)
      && (forall c :: c in r.availableCategories <==>
            Mentions(s.transactions + parsed, c) || c == Uncategorized || c == ReviewLater
            || c == FlaggedForReview || c in s.fixedCategories)
      && (s.endDate.None? ==> r.endDate == Some(today) && r.startDate == Some(OneMonthBefore(today)))
      && (s.endDate.Some? ==> r.endDate == s.endDate && r.startDate == s.startDate)
      && (r.startDate.Some? && r.endDate.Some? ==>
            Analyzed(r) && r.filtered == FilterByDate(r.transactions, r.startDate.value, r.endDate.value))
  {
    CategoryListContents(s.transactions + parsed, s.fixedCategories);
  }

  /** With no end date set, the bounds become one month before `today` and `today`. */
  function DefaultBounds(s: TrackerState, today: Date): TrackerState {
    if s.endDate.None? then s.(endDate := Some(today), startDate := Some(OneMonthBefore(today))) else s
  }

  /** The appended rows and the category list rebuilt from them, before filtering. */
  function StoreImport(s: TrackerState, parsed: seq<Transaction>): TrackerState {
    var combined := s.transactions + parsed;
    s.(availableCategories := CategoryList(combined, s.fixedCategories), transactions := combined)
  }

  /** The date inputs change; with transactions loaded, the view is re-filtered. */
  function SetDateRangeStep(s: TrackerState, start: Option<Date>, end: Option<Date>): (r: TrackerState)
    ensures r.startDate == start && r.endDate == end
    ensures r.transactions == s.transactions && r.availableCategories == s.availableCategories
    ensures r.fixedCategories == s.fixedCategories
    ensures |s.transactions| == 0 || start.None? || end.None? ==> r.filtered == s.filtered && r.summary == s.summary
    ensures |s.transactions| > 0 && start.Some? && end.Some? ==>
      Analyzed(r) && r.filtered == FilterByDate(s.transactions, start.value, end.value)
  {
    var bounded := s.(startDate := start, endDate := end);
    if |s.transactions| > 0 then FilterStep(bounded, bounded.transactions) else bounded
  }

  /** updateTransactionCategory(i, c). An index outside the view changes nothing. Otherwise
      only the category of the i-th row of the view changes; in the full list only the first
      row with the same date, description and amount changes, and only its category (with no
      such row the full list stays as it was); the view is re-analysed. */
  function UpdateCategoryStep(s: TrackerState, i: int, c: string): (r: TrackerState)
    ensures i < 0 || i >= |s.filtered| ==> r == s
    ensures r.availableCategories == s.availableCategories && r.fixedCategories == s.fixedCategories
    ensures r.startDate == s.startDate && r.endDate == s.endDate
    ensures |r.filtered| == |s.filtered| && |r.transactions| == |s.transactions|
    ensures 0 <= i < |s.filtered| ==>
      var shown := s.filtered[i];
      && r.filtered == s.filtered[i := WithCategory(shown, c)]
      && Analyzed(r)
      && (MatchingIndex(s.transactions, shown).None? ==> r.transactions == s.transactions)
      && forall k :: 0 <= k < |s.transactions| ==>
           if Some(k) == MatchingIndex(s.transactions, shown)
           then r.transactions[k] == WithCategory(s.transactions[k], c)
           else r.transactions[k] == s.transactions[k]
  {
    if i < 0 || i >= |s.filtered| then s
    else
      var shown := s.filtered[i];
      var filtered := s.filtered[i := WithCategory(shown, c)];
      var all := match MatchingIndex(s.transactions, shown)
        case None => s.transactions
        case Some(j) => s.transactions[j := WithCategory(s.transactions[j], c)];
      s.(filtered := filtered, transactions := all, summary := Analyze(filtered, s.fixedCategories))
  }

  /** After a reassignment the grand total fixed + flexible is unchanged; the old category of
      the row loses its magnitude and the new category gains it. */
  lemma UpdateCategoryMovesSpending(s: TrackerState, i: int, c: string)
    requires Analyzed(s) && 0 <= i < |s.filtered|
    ensures var r, t := UpdateCategoryStep(s, i, c), s.filtered[i];
      && r.summary.fixedTotal + r.summary.flexibleTotal == s.summary.fixedTotal + s.summary.flexibleTotal
      && forall x :: Get(r.summary.categoryTotals, x) ==
           Get(s.summary.categoryTotals, x) - Spent(t, x) + Spent(WithCategory(t, c), x)
  {
    RecategorizeMovesSpending(s.filtered, i, WithCategory(s.filtered[i], c), s.fixedCategories);
  }

  /** The fields an edit supplies; a present field (Some) overrides, an absent one is kept. */
  datatype Patch = Patch(
    date: Option<string>,
    description: Option<string>,
    amount: Option<Option<int>>,
    category: Option<Option<string>>,
    kind: Option<Option<string>>,
    memo: Option<Option<string>>)

  /** `{ ...t, ...p }`: each field the patch supplies replaces the row's, and every other
      field of the row is kept. */
  function Merge(t: Transaction, p: Patch): (r: Transaction)
    ensures r.date == (if p.date.Some? then p.date.value else t.date)
    ensures r.description == (if p.description.Some? then p.description.value else t.description)
    ensures r.amount == (if p.amount.Some? then p.amount.value else t.amount)
    ensures r.category == (if p.category.Some? then p.category.value else t.category)
    ensures r.kind == (if p.kind.Some? then p.kind.value else t.kind)
    ensures r.memo == (if p.memo.Some? then p.memo.value else t.memo)
    ensures p == Patch(None, None, None, None, None, None) ==> r == t
  {
    Transaction(
      p.date.GetOr(t.date), p.description.GetOr(t.description), p.amount.GetOr(t.amount),
      p.category.GetOr(t.category), p.kind.GetOr(t.kind), p.memo.GetOr(t.memo))
  }

  /** updateTransaction(i, p): as UpdateCategoryStep, with the fields of `p` merged into the
      i-th row of the view and into the first full-list row matching that row's values
      from before the edit. */
  function UpdateTransactionStep(s: TrackerState, i: int, p: Patch): (r: TrackerState)
    ensures i < 0 || i >= |s.filtered| ==> r == s
    ensures r.availableCategories == s.availableCategories && r.fixedCategories == s.fixedCategories
    ensures r.startDate == s.startDate && r.endDate == s.endDate
    ensures |r.filtered| == |s.filtered| && |r.transactions| == |s.transactions|
    ensures 0 <= i < |s.filtered| ==>
      var shown := s.filtered[i];
      && r.filtered == s.filtered[i := Merge(shown, p)]
      && Analyzed(r)
      && (MatchingIndex(s.transactions, shown).None? ==> r.transactions == s.transactions)
      && forall k :: 0 <= k < |s.transactions| ==>
           if Some(k) == MatchingIndex(s.transactions, shown)
           then r.transactions[k] == Merge(s.transactions[k], p)
           else r.transactions[k] == s.transactions[k]
  {
    if i < 0 || i >= |s.filtered| then s
    else
      var shown := s.filtered[i];
      var filtered := s.filtered[i := Merge(shown, p)];
      var all := match MatchingIndex(s.transactions, shown)
        case None => s.transactions
        case Some(j) => s.transactions[j := Merge(s.transactions[j], p)];
      s.(filtered := filtered, transactions := all, summary := Analyze(filtered, s.fixedCategories))
  }

  /** An edit that only changes the category is a category reassignment. */
  lemma CategoryEditIsReassignment(s: TrackerState, i: int, c: string)
    ensures UpdateTransactionStep(s, i, Patch(None, None, None, Some(Some(c)), None, None)) == UpdateCategoryStep(s, i, c)
  {
    var p := Patch(None, None, None, Some(Some(c)), None, None);
    if 0 <= i < |s.filtered| {
      assert forall t :: Merge(t, p) == WithCategory(t, c);
    }
  }

  /** The copy flagTransaction appends: same row, category 'Flagged for Review', and the memo
      annotated with the flag date `stamp`. */
  function FlaggedCopy(t: Transaction, stamp: string): (r: Transaction)
    ensures SameKey(r, t) && r.kind == t.kind && r.category == Some(FlaggedForReview)
  {
    var memo := t.memo.GetOr("");
    t.(category := Some(FlaggedForReview), memo := Some(Trim(memo + " [FLAGGED: " + stamp + "]")))
  }

  /** flagTransaction(i): an index outside the view changes nothing; otherwise a flagged copy
      of the i-th row is appended to both lists, every existing row stays as it was, and the
      view is re-analysed. */
  function FlagStep(s: TrackerState, i: int, stamp: string): (r: TrackerState)
    ensures i < 0 || i >= |s.filtered| ==> r == s
    ensures r.availableCategories == s.availableCategories && r.fixedCategories == s.fixedCategories
    ensures r.startDate == s.startDate && r.endDate == s.endDate
    ensures 0 <= i < |s.filtered| ==>
      var copy := FlaggedCopy(s.filtered[i], stamp);
      && |r.filtered| == |s.filtered| + 1 && |r.transactions| == |s.transactions| + 1
      && r.filtered[..|s.filtered|] == s.filtered && r.filtered[|s.filtered|] == copy
      && r.transactions[..|s.transactions|] == s.transactions && r.transactions[|s.transactions|] == copy
      && Analyzed(r)
  {
    if i < 0 || i >= |s.filtered| then s
    else
      var copy := FlaggedCopy(s.filtered[i], stamp);
      var filtered := s.filtered + [copy];
      assert filtered[..|s.filtered|] == s.filtered;
      assert (s.transactions + [copy])[..|s.transactions|] == s.transactions;
      s.(filtered := filtered, transactions := s.transactions + [copy],
         summary := Analyze(filtered, s.fixedCategories))
  }

  /** Flagging copies rather than moves: an expense is then counted twice, so the grand total
      and the 'Flagged for Review' total each grow by its magnitude while its own category
      keeps its total. */
  lemma FlagCountsExpenseTwice(s: TrackerState, i: int, stamp: string)
    requires Analyzed(s) && 0 <= i < |s.filtered| && IsExpense(s.filtered[i])
    ensures var r, t := FlagStep(s, i, stamp), s.filtered[i];
      && r.summary.fixedTotal + r.summary.flexibleTotal ==
           s.summary.fixedTotal + s.summary.flexibleTotal + Magnitude(t)
      && Get(r.summary.categoryTotals, FlaggedForReview) ==
           Get(s.summary.categoryTotals, FlaggedForReview) + Magnitude(t)
      && (CategoryOf(t) != FlaggedForReview ==>
           Get(r.summary.categoryTotals, CategoryOf(t)) == Get(s.summary.categoryTotals, CategoryOf(t)))
  {
    var t := s.filtered[i];
    var copy := FlaggedCopy(t, stamp);
    AppendAddsSpending(s.filtered, copy, s.fixedCategories);
    assert CategoryOf(copy) == FlaggedForReview;
  }

  /** Why addCategory refuses a name. */
  datatype AddCategoryOutcome = Added | EmptyName | DuplicateName

  /** addCategory's verdict: a name that is empty after trimming is refused, then one that
      is already listed (exact, case-sensitive comparison of the untrimmed name). */
  function AddCategoryCheck(s: TrackerState, name: string): (o: AddCategoryOutcome)
    ensures o == EmptyName <==> IsBlank(name)
    ensures o == DuplicateName <==> !IsBlank(name) && name in s.availableCategories
  {
    if Trim(name) == "" then EmptyName
    else if name in s.availableCategories then DuplicateName
    else Added
  }

  /** addCategory(name, isFixed): a refused name changes nothing; otherwise the name is
      appended once to the category list, and to the fixed list exactly when `isFixed`. */
  function AddCategoryStep(s: TrackerState, name: string, isFixed: bool): (r: TrackerState)
    ensures AddCategoryCheck(s, name) != Added ==> r == s
    ensures AddCategoryCheck(s, name) == Added ==>
      && r.availableCategories == s.availableCategories + [name]
      && r.fixedCategories == (if isFixed then s.fixedCategories + [name] else s.fixedCategories)
      && r == s.(availableCategories := r.availableCategories, fixedCategories := r.fixedCategories)
    ensures NoDup(s.availableCategories) ==> NoDup(r.availableCategories)
  {
    if AddCategoryCheck(s, name) != Added then s
    else
      s.(availableCategories := s.availableCategories + [name],
         fixedCategories := if isFixed then s.fixedCategories + [name] else s.fixedCategories)
  }

  /** The live page's session. Each method does what the handler of the same name does, and
      its postcondition ties the new state to the step function above. */
  class SpendingTracker {
    var transactions: seq<Transaction>
    var filteredTransactions: seq<Transaction>
    var categoryTotals: Totals
    var fixedTotal: int
    var flexibleTotal: int
    var availableCategories: seq<string>
    var fixedCategories: seq<string>
    var startDate: Option<Date>
    var endDate: Option<Date>

    ghost function State(): TrackerState
      reads this
    {
      TrackerState(transactions, filteredTransactions, SpendingSummary(categoryTotals, fixedTotal, flexibleTotal),
        availableCategories, fixedCategories, startDate, endDate)
    }

    /** The category list never lists a name twice. */
    ghost predicate Valid()
      reads this
    {
      NoDup(availableCategories)
    }

    constructor ()
      ensures Valid() && State() == InitialState
    {
      transactions, filteredTransactions := [], [];
      categoryTotals, fixedTotal, flexibleTotal := [], 0, 0;
      availableCategories := [];
      fixedCategories := DefaultFixedCategories;
      startDate, endDate := None, None;
    }

    /** analyzeTransactions: stores the analysis of `ts`. */
    method AnalyzeTransactions(ts: seq<Transaction>)
      modifies this
      ensures State() == old(State()).(summary := Analyze(ts, fixedCategories))
    {
      var summary := Aggregation.AnalyzeTransactions(ts, fixedCategories);
      categoryTotals, fixedTotal, flexibleTotal := summary.categoryTotals, summary.fixedTotal, summary.flexibleTotal;
    }

    method FilterTransactionsByDate(all: seq<Transaction>)
      modifies this
      ensures State() == FilterStep(old(State()), all)
    {
      if startDate.None? || endDate.None? {
        return;
      }
      var filtered := FilterByDate(all, startDate.value, endDate.value);
      filteredTransactions := filtered;
      AnalyzeTransactions(filtered);
    }

    /** With no end date, the bounds become the month up to `today`. */
    method SetDefaultBounds(today: Date)
      modifies this
      ensures State() == DefaultBounds(old(State()), today)
    {
      if endDate.None? {
        endDate := Some(today);
        startDate := Some(OneMonthBefore(today));
      }
    }

    /** The combined list is stored, and the category list is rebuilt from it. */
    method StoreCombined(combined: seq<Transaction>)
      modifies this
      ensures NoDup(availableCategories)
      ensures State() == old(State()).(availableCategories := CategoryList(combined, fixedCategories), transactions := combined)
    {
      var categories := BuildCategoryList(combined, fixedCategories);
      availableCategories := categories;
      transactions := combined;
    }

    /** The `complete` callback of parseCSV, with the parsed rows and the current date. */
    method ImportTransactions(parsed: seq<Transaction>, today: Date)
      requires Valid()
      modifies this
      ensures Valid() && State() == ImportStep(old(State()), parsed, today)
    {
      SetDefaultBounds(today);
      var combined := transactions + parsed;
      StoreCombined(combined);
      FilterTransactionsByDate(combined);
    }

    /** The date inputs change, which re-runs the filter when transactions are loaded. */
    method SetDateRange(start: Option<Date>, end: Option<Date>)
      requires Valid()
      modifies this
      ensures Valid() && State() == SetDateRangeStep(old(State()), start, end)
    {
      startDate, endDate := start, end;
      if |transactions| > 0 {
        FilterTransactionsByDate(transactions);
      }
    }

    method UpdateTransactionCategory(transactionIndex: int, newCategory: string)
      requires Valid()
      modifies this
      ensures Valid() && State() == UpdateCategoryStep(old(State()), transactionIndex, newCategory)
    {
      if transactionIndex < 0 || transactionIndex >= |filteredTransactions| {
        return;
      }
      var updatedFiltered := filteredTransactions;
      var updatedAll := transactions;
      var transaction := updatedFiltered[transactionIndex];
      updatedFiltered := updatedFiltered[transactionIndex := WithCategory(transaction, newCategory)];
      var fullIndex := MatchingIndex(updatedAll, transaction);
      if fullIndex.Some? {
        updatedAll := updatedAll[fullIndex.value := WithCategory(updatedAll[fullIndex.value], newCategory)];
      }
      filteredTransactions := updatedFiltered;
      transactions := updatedAll;
      AnalyzeTransactions(updatedFiltered);
    }

    method UpdateTransaction(transactionIndex: int, updatedFields: Patch)
      requires Valid()
      modifies this
      ensures Valid() && State() == UpdateTransactionStep(old(State()), transactionIndex, updatedFields)
    {
      if transactionIndex < 0 || transactionIndex >= |filteredTransactions| {
        return;
      }
      var updatedFiltered := filteredTransactions;
      var updatedAll := transactions;
      var transaction := updatedFiltered[transactionIndex];
      updatedFiltered := updatedFiltered[transactionIndex := Merge(transaction, updatedFields)];
      var fullIndex := MatchingIndex(updatedAll, transaction);
      if fullIndex.Some? {
        updatedAll := updatedAll[fullIndex.value := Merge(updatedAll[fullIndex.value], updatedFields)];
      }
      filteredTransactions := updatedFiltered;
      transactions := updatedAll;
      AnalyzeTransactions(updatedFiltered);
    }

    /** flagTransaction, with `stamp` standing for the locale date string of the clock. */
    method FlagTransaction(index: int, stamp: string)
      requires Valid()
      modifies this
      ensures Valid() && State() == FlagStep(old(State()), index, stamp)
    {
      if index < 0 || index >= |filteredTransactions| {
        return;
      }
      var transactionToFlag := filteredTransactions[index];
      var flaggedTransaction := FlaggedCopy(transactionToFlag, stamp);
      var updatedFiltered := filteredTransactions + [flaggedTransaction];
      var updatedAll := transactions + [flaggedTransaction];
      filteredTransactions := updatedFiltered;
      transactions := updatedAll;
      AnalyzeTransactions(updatedFiltered);
    }

    method AddCategory(categoryName: string, isFixed: bool) returns (outcome: AddCategoryOutcome)
      requires Valid()
      modifies this
      ensures outcome == AddCategoryCheck(old(State()), categoryName)
      ensures Valid() && State() == AddCategoryStep(old(State()), categoryName, isFixed)
    {
      if Trim(categoryName) == "" {
        return EmptyName;
      }
      if categoryName in availableCategories {
        return DuplicateName;
      }
      availableCategories := availableCategories + [categoryName];
      if isFixed {
        fixedCategories := fixedCategories + [categoryName];
      }
      outcome := Added;
    }
  }
}
