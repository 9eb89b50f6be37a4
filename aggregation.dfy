/** analyzeTransactions: expense magnitudes summed per category and split into a fixed and a
    flexible total. */
module Aggregation {
  import opened Wrappers
  import opened Seqs
  import opened Ledger
  import opened Transactions

  /** The three results analyzeTransactions stores. */
  datatype SpendingSummary = SpendingSummary(categoryTotals: Totals, fixedTotal: int, flexibleTotal: int)

  const EmptySummary := SpendingSummary([], 0, 0)

  /** One step of the forEach: income is skipped; an expense adds its magnitude to its
      category and to exactly one of the fixed and flexible totals. */
  function Record(s: SpendingSummary, t: Transaction, fixed: seq<string>): SpendingSummary {
    if !IsExpense(t) then s
    else
      var c, m := CategoryOf(t), Magnitude(t);
      SpendingSummary(
        Add(s.categoryTotals, c, m),
        if c in fixed then s.fixedTotal + m else s.fixedTotal,
        if c in fixed then s.flexibleTotal else s.flexibleTotal + m)
  }

  /** The summary of `ts`, processed first to last. */
  function Analyze(ts: seq<Transaction>, fixed: seq<string>): SpendingSummary {
    if ts == [] then EmptySummary
    else Record(Analyze(ts[..|ts| - 1], fixed), ts[|ts| - 1], fixed)
  }

  // Reference sums, defined independently of the accumulation above.

  /** What `t` contributes to category `c`. */
  function Spent(t: Transaction, c: string): nat {
    if IsExpense(t) && CategoryOf(t) == c then Magnitude(t) else 0
  }

  /** The sum of |Amount| over the expenses of `ts`. */
  function ExpenseSum(ts: seq<Transaction>): int {
    if ts == [] then 0
    else ExpenseSum(ts[..|ts| - 1]) + (if IsExpense(ts[|ts| - 1]) then Magnitude(ts[|ts| - 1]) else 0)
  }

  /** The sum of |Amount| over the expenses of `ts` in category `c`. */
  function CategorySpend(ts: seq<Transaction>, c: string): int {
    if ts == [] then 0 else CategorySpend(ts[..|ts| - 1], c) + Spent(ts[|ts| - 1], c)
  }

  /** The sum of |Amount| over the expenses of `ts` whose category is fixed. */
  function FixedSpend(ts: seq<Transaction>, fixed: seq<string>): int {
    if ts == [] then 0
    else
      var t := ts[|ts| - 1];
      FixedSpend(ts[..|ts| - 1], fixed) + (if IsExpense(t) && CategoryOf(t) in fixed then Magnitude(t) else 0)
  }

  /** Some expense of `ts` is in category `c`. */
  predicate HasExpenseIn(ts: seq<Transaction>, c: string) {
    exists i :: 0 <= i < |ts| && IsExpense(ts[i]) && CategoryOf(ts[i]) == c
  }

  /** Each category total is that category's expense sum. */
  lemma {:induction false} TotalsMatchSpend(ts: seq<Transaction>, fixed: seq<string>, c: string)
    ensures Get(Analyze(ts, fixed).categoryTotals, c) == CategorySpend(ts, c)
  {
    if ts != [] {
      TotalsMatchSpend(ts[..|ts| - 1], fixed, c);
    }
  }

  lemma HasExpenseInSnoc(ts: seq<Transaction>, c: string)
    requires ts != []
    ensures var init, t := ts[..|ts| - 1], ts[|ts| - 1];
      HasExpenseIn(ts, c) <==> HasExpenseIn(init, c) || (IsExpense(t) && CategoryOf(t) == c)
  {
    var init := ts[..|ts| - 1];
    if HasExpenseIn(ts, c) {
      var i :| 0 <= i < |ts| && IsExpense(ts[i]) && CategoryOf(ts[i]) == c;
      if i < |init| {
        assert init[i] == ts[i];
      }
    }
    if HasExpenseIn(init, c) {
      var i :| 0 <= i < |init| && IsExpense(init[i]) && CategoryOf(init[i]) == c;
      assert ts[i] == init[i];
    }
  }

  /** A category's expense sum is never negative, and positive exactly when it has an expense. */
  lemma {:induction false} SpendPositiveIffExpense(ts: seq<Transaction>, c: string)
    ensures CategorySpend(ts, c) >= 0
    ensures CategorySpend(ts, c) > 0 <==> HasExpenseIn(ts, c)
  {
    if ts != [] {
      SpendPositiveIffExpense(ts[..|ts| - 1], c);
      HasExpenseInSnoc(ts, c);
    }
  }

  /** The dictionary holds one entry per category that has an expense, and no other. */
  lemma {:induction false} TotalsNames(ts: seq<Transaction>, fixed: seq<string>)
    ensures var totals := Analyze(ts, fixed).categoryTotals;
      NoDup(Names(totals)) && forall c :: c in Names(totals) <==> HasExpenseIn(ts, c)
  {
    if ts != [] {
      TotalsNames(ts[..|ts| - 1], fixed);
      forall c ensures c in Names(Analyze(ts, fixed).categoryTotals) <==> HasExpenseIn(ts, c) {
        HasExpenseInSnoc(ts, c);
      }
    }
  }

  /** The category totals are exactly the per-category expense sums: one entry per category
      that has an expense, none for any other, and every amount positive. */
  lemma TotalsAreCategorySums(ts: seq<Transaction>, fixed: seq<string>)
    ensures var totals := Analyze(ts, fixed).categoryTotals;
      && NoDup(Names(totals))
      && AllPositive(totals)
      && (forall c :: Get(totals, c) == CategorySpend(ts, c))
      && (forall c :: c in Names(totals) <==> HasExpenseIn(ts, c))
  {
    var totals := Analyze(ts, fixed).categoryTotals;
    TotalsNames(ts, fixed);
    forall c ensures Get(totals, c) == CategorySpend(ts, c) {
      TotalsMatchSpend(ts, fixed, c);
    }
    forall i | 0 <= i < |totals| ensures totals[i].amount > 0 {
      var c := totals[i].name;
      assert Names(totals)[i] == c;
      TotalsMatchSpend(ts, fixed, c);
      SpendPositiveIffExpense(ts, c);
    }
  }

  /** fixedTotal and flexibleTotal split the expenses by membership of their category in
      the fixed list. */
  lemma {:induction false} FixedFlexibleSplit(ts: seq<Transaction>, fixed: seq<string>)
    ensures Analyze(ts, fixed).fixedTotal == FixedSpend(ts, fixed)
    ensures Analyze(ts, fixed).flexibleTotal == ExpenseSum(ts) - FixedSpend(ts, fixed)
  {
    if ts != [] {
      FixedFlexibleSplit(ts[..|ts| - 1], fixed);
    }
  }

  /** The conservation law: fixed + flexible equals the sum of the category totals, which
      equals the sum of |Amount| over all expenses; neither total is negative. */
  lemma {:induction false} SummaryConservation(ts: seq<Transaction>, fixed: seq<string>)
    ensures var s := Analyze(ts, fixed);
      && s.fixedTotal + s.flexibleTotal == Sum(s.categoryTotals) == ExpenseSum(ts)
      && s.fixedTotal >= 0 && s.flexibleTotal >= 0
  {
    if ts != [] {
      SummaryConservation(ts[..|ts| - 1], fixed);
    }
  }

  /** Replacing the transaction at `i` by one with the same amount changes the per-category
      sums only by moving its magnitude from its old category to its new one. */
  lemma {:induction false} ReplaceMovesSpend(ts: seq<Transaction>, i: nat, u: Transaction, c: string)
    requires i < |ts| && AmountOf(u) == AmountOf(ts[i])
    ensures CategorySpend(ts[i := u], c) == CategorySpend(ts, c) - Spent(ts[i], c) + Spent(u, c)
    ensures ExpenseSum(ts[i := u]) == ExpenseSum(ts)
  {
    var ts' := ts[i := u];
    if i < |ts| - 1 {
      assert ts'[..|ts'| - 1] == ts[..|ts| - 1][i := u];
      ReplaceMovesSpend(ts[..|ts| - 1], i, u, c);
    } else {
      assert ts'[..|ts'| - 1] == ts[..|ts| - 1];
    }
  }

  /** Reassigning the category of one transaction and re-analysing leaves the grand total
      fixed + flexible unchanged; the old category loses the expense's magnitude, the new
      one gains it, and every other category keeps its total. */
  lemma RecategorizeMovesSpending(ts: seq<Transaction>, i: nat, u: Transaction, fixed: seq<string>)
    requires i < |ts| && AmountOf(u) == AmountOf(ts[i])
    ensures var before, after := Analyze(ts, fixed), Analyze(ts[i := u], fixed);
      && after.fixedTotal + after.flexibleTotal == before.fixedTotal + before.flexibleTotal
      && forall c :: Get(after.categoryTotals, c) == Get(before.categoryTotals, c) - Spent(ts[i], c) + Spent(u, c)
  {
    SummaryConservation(ts, fixed);
    SummaryConservation(ts[i := u], fixed);
    TotalsAreCategorySums(ts, fixed);
    TotalsAreCategorySums(ts[i := u], fixed);
    forall c ensures CategorySpend(ts[i := u], c) == CategorySpend(ts, c) - Spent(ts[i], c) + Spent(u, c) {
      ReplaceMovesSpend(ts, i, u, c);
    }
    ReplaceMovesSpend(ts, i, u, "");
  }

  /** Appending a transaction adds its magnitude to the grand total and to its category. */
  lemma AppendAddsSpending(ts: seq<Transaction>, u: Transaction, fixed: seq<string>)
    ensures var before, after := Analyze(ts, fixed), Analyze(ts + [u], fixed);
      && after.fixedTotal + after.flexibleTotal == before.fixedTotal + before.flexibleTotal + (if IsExpense(u) then Magnitude(u) else 0)
      && forall c :: Get(after.categoryTotals, c) == Get(before.categoryTotals, c) + Spent(u, c)
  {
    assert (ts + [u])[..|ts|] == ts;
  }

  /** The forEach loop of analyzeTransactions, with its mutable dictionary and two running
      totals; the result obeys the conservation law. */
  method AnalyzeTransactions(ts: seq<Transaction>, fixed: seq<string>) returns (s: SpendingSummary)
    ensures s == Analyze(ts, fixed)
    ensures s.fixedTotal + s.flexibleTotal == Sum(s.categoryTotals) == ExpenseSum(ts)
  {
    var categories: Totals := [];
    var fixedSpending, flexibleSpending := 0, 0;
    var i := 0;
    while i < |ts|
      invariant 0 <= i <= |ts|
      invariant SpendingSummary(categories, fixedSpending, flexibleSpending) == Analyze(ts[..i], fixed)
    {
      assert ts[..i + 1][..i] == ts[..i];
      var t := ts[i];
      assert Analyze(ts[..i + 1], fixed) == Record(Analyze(ts[..i], fixed), t, fixed);
      var category := CategoryOf(t);
      var amount := AmountOf(t);
      if amount < 0 {
        amount := Magnitude(t);
        categories := Add(categories, category, amount);
        if category in fixed {
          fixedSpending := fixedSpending + amount;
        } else {
          flexibleSpending := flexibleSpending + amount;
        }
      }
      i := i + 1;
    }
    assert ts[..i] == ts;
    s := SpendingSummary(categories, fixedSpending, flexibleSpending);
    SummaryConservation(ts, fixed);
  }
}
