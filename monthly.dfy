/** The monthly bucket builder of the dashboard (client/src/components/MonthlyComparisonDashboard.tsx):
    expenses grouped by the (year, month) of their date, six trailing months seeded empty, and
    the buckets ordered most recent month first. */
module Monthly {
  import opened Wrappers
  import opened Seqs
  import opened Ledger
  import opened Transactions
  import opened Aggregation
  import opened Sorting

  /** The `YYYY-MM` key of a bucket; InvalidMonth is the `NaN-NaN` key of an Invalid Date. */
  datatype MonthKey = YearMonth(year: int, month: int) | InvalidMonth

  /** Months counted from January of year 0. */
  function MonthIndex(year: int, month: int): int {
    year * 12 + (month - 1)
  }

  /** The key of month number `n`; the Date constructor carries a month outside 1-12 into the
      year, which this normalisation reproduces. */
  function KeyOfIndex(n: int): (k: MonthKey)
    ensures k.YearMonth? && 1 <= k.month <= 12 && MonthIndex(k.year, k.month) == n
  {
    YearMonth(n / 12, n % 12 + 1)
  }

  /** The key `i` months before the month of `today`. */
  function TrailingKey(today: Date, i: int): MonthKey {
    KeyOfIndex(MonthIndex(today.year, today.month) - i)
  }

  /** The keys the dashboard seeds: this month and the five before it, newest first. */
  function TrailingMonths(today: Date): (r: seq<MonthKey>)
    ensures |r| == 6 && NoDup(r)
    ensures forall i :: 0 <= i < 6 ==>
      r[i].YearMonth? && 1 <= r[i].month <= 12
      && MonthIndex(r[i].year, r[i].month) == MonthIndex(today.year, today.month) - i
  {
    seq(6, i => TrailingKey(today, i))
  }

  // The seed loop as written: `new Date(today)` then `setMonth(today.getMonth() - i)` keeps
  // the day of the month, and a day the target month does not have rolls into the next one.

  predicate IsLeapYear(year: int) {
    year % 4 == 0 && (year % 100 != 0 || year % 400 == 0)
  }

  function DaysInMonth(year: int, month: int): (n: int)
    requires 1 <= month <= 12
    ensures 28 <= n <= 31
    ensures n == 31 <==> month in {1, 3, 5, 7, 8, 10, 12}
    ensures month == 2 ==> (n == 29 <==> IsLeapYear(year))
  {
    if month == 2 then (if IsLeapYear(year) then 29 else 28)
    else if month in {4, 6, 9, 11} then 30
    else 31
  }

  /** The key of the i-th seeded date as the loop computes it. */
  function SeedKeyAsWritten(today: Date, i: int): (k: MonthKey)
    requires 1 <= today.month <= 12
    ensures k.YearMonth? && 1 <= k.month <= 12
  {
    var n := MonthIndex(today.year, today.month) - i;
    var target := KeyOfIndex(n);
    if today.day > DaysInMonth(target.year, target.month) then KeyOfIndex(n + 1) else target
  }

  function TrailingMonthsAsWritten(today: Date): (r: seq<MonthKey>)
    requires 1 <= today.month <= 12
    ensures |r| == 6
  {
    seq(6, i => SeedKeyAsWritten(today, i))
  }

  /** On 31 October 2026 the second seeded date, 31 September, rolls over to 1 October:
      the October key is seeded twice and September is never seeded (31 June likewise
      becomes 1 July). */
  lemma SeedRepeatsMonthOnThe31st()
    ensures var r := TrailingMonthsAsWritten(Date(2026, 10, 31));
      && r[0] == r[1] == YearMonth(2026, 10)
      && !NoDup(r)
      && YearMonth(2026, 9) !in r
      && YearMonth(2026, 9) in TrailingMonths(Date(2026, 10, 31))
  {
    var today := Date(2026, 10, 31);
    KeyAt(2026, 10);
    KeyAt(2026, 9);
    KeyAt(2026, 8);
    KeyAt(2026, 7);
    KeyAt(2026, 6);
    KeyAt(2026, 5);
    var r := TrailingMonthsAsWritten(today);
    assert r[1] == YearMonth(2026, 10);
    assert r[4] == YearMonth(2026, 7);
    assert TrailingMonths(today)[1] == YearMonth(2026, 9);
  }

  lemma KeyAt(year: int, month: int)
    requires 1 <= month <= 12
    ensures KeyOfIndex(MonthIndex(year, month)) == YearMonth(year, month)
  {
  }

  /** Up to the 28th of the month the loop as written seeds the six trailing months. */
  lemma SeedAsWrittenAgreesUpToThe28th(today: Date)
    requires 1 <= today.month <= 12 && today.day <= 28
    ensures TrailingMonthsAsWritten(today) == TrailingMonths(today)
  {
  }

  /** The bucket a transaction goes to, or None when it is skipped. */
  function MonthOf(t: Transaction): (r: Option<MonthKey>)
    ensures r.Some? ==> IsExpense(t)
    ensures r.Some? && r.value.YearMonth? ==> 1 <= r.value.month <= 12
  {
    if t.date == "" || !IsExpense(t) then None
    else match ParseTransactionDate(t.date)
      case None => None
      case Some(Valid(d)) => Some(KeyOfIndex(MonthIndex(d.year, d.month)))
      case Some(Invalid) => Some(InvalidMonth)
  }

  /** A transaction is skipped when it has no date, when its Amount is not negative (an
      empty cell compares as 0), or when its date is not three '/'-separated parts; an
      unparsable part gives the Invalid Date's bucket, and a valid date the bucket of its
      year and month. */
  lemma MonthOfSkipsAndKeys(t: Transaction)
    ensures MonthOf(t).Some? <==> t.date != "" && IsExpense(t) && ParseTransactionDate(t.date).Some?
    ensures MonthOf(t).Some? ==>
      (MonthOf(t).value.InvalidMonth? <==> ParseTransactionDate(t.date).value.Invalid?)
    ensures MonthOf(t).Some? && ParseTransactionDate(t.date).value.Valid? ==>
      var d := ParseTransactionDate(t.date).value.date;
      MonthOf(t).value.YearMonth? && MonthIndex(MonthOf(t).value.year, MonthOf(t).value.month) == MonthIndex(d.year, d.month)
  {
  }

  /** One MonthlyData record. The display label is left out; the key determines it. */
  datatype MonthlyData = MonthlyData(key: MonthKey, fixedTotal: int, flexibleTotal: int, total: int, categories: Totals)

  function EmptyBucket(k: MonthKey): MonthlyData {
    MonthlyData(k, 0, 0, 0, [])
  }

  /** The part of a bucket that analyzeTransactions would also compute. */
  function SummaryOf(b: MonthlyData): SpendingSummary {
    SpendingSummary(b.categories, b.fixedTotal, b.flexibleTotal)
  }

  /** One transaction added to its bucket: its magnitude goes to its category, to one of the
      fixed and flexible totals, and to the grand total. For an expense this is exactly one
      step of the page's analysis. */
  function AddExpense(b: MonthlyData, t: Transaction, fixed: seq<string>): (r: MonthlyData)
    ensures r.key == b.key && r.total == b.total + Magnitude(t)
    ensures IsExpense(t) ==> SummaryOf(r) == Record(SummaryOf(b), t, fixed)
  {
    var category, amount := CategoryOf(t), Magnitude(t);
    MonthlyData(
      b.key,
      if category in fixed then b.fixedTotal + amount else b.fixedTotal,
      if category in fixed then b.flexibleTotal else b.flexibleTotal + amount,
      b.total + amount,
      Add(b.categories, category, amount))
  }

  function Keys(bs: seq<MonthlyData>): (r: seq<MonthKey>)
    ensures |r| == |bs| && forall i :: 0 <= i < |bs| ==> r[i] == bs[i].key
  {
    if bs == [] then [] else [bs[0].key] + Keys(bs[1..])
  }

  /** `monthData[monthKey]`: the position of the bucket with key `k`. */
  function IndexOfKey(bs: seq<MonthlyData>, k: MonthKey): (r: Option<nat>)
    ensures r.Some? ==> r.value < |bs| && bs[r.value].key == k
    ensures r.None? <==> k !in Keys(bs)
  {
    FindIndex(bs, (b: MonthlyData) => b.key == k)
  }

  /** The bucket builder is written over the month classifier `monthOf`; the dashboard's is
      MonthOf. A classifier used for buckets only ever counts expenses. */
  ghost predicate CountsExpenses(monthOf: Transaction -> Option<MonthKey>) {
    forall t :: monthOf(t).Some? ==> IsExpense(t)
  }

  lemma MonthOfCountsExpenses()
    ensures CountsExpenses(MonthOf)
  {
  }

  /** The forEach body: a skipped transaction changes nothing; otherwise it is added to the
      bucket of its month, which is created at the end when absent. */
  function Place(bs: seq<MonthlyData>, t: Transaction, fixed: seq<string>, monthOf: Transaction -> Option<MonthKey>): seq<MonthlyData> {
    match monthOf(t)
    case None => bs
    case Some(k) =>
      match IndexOfKey(bs, k)
      case Some(j) => bs[j := AddExpense(bs[j], t, fixed)]
      case None => bs + [AddExpense(EmptyBucket(k), t, fixed)]
  }

  /** The buckets after processing `ts` first to last, starting from `bs`. */
  function Fill(bs: seq<MonthlyData>, ts: seq<Transaction>, fixed: seq<string>, monthOf: Transaction -> Option<MonthKey>): seq<MonthlyData> {
    if ts == [] then bs else Place(Fill(bs, ts[..|ts| - 1], fixed, monthOf), ts[|ts| - 1], fixed, monthOf)
  }

  function Seed(keys: seq<MonthKey>): (r: seq<MonthlyData>)
    ensures |r| == |keys| && Keys(r) == keys
    ensures forall i :: 0 <= i < |keys| ==> r[i] == EmptyBucket(keys[i])
  {
    if keys == [] then [] else [EmptyBucket(keys[0])] + Seed(keys[1..])
  }

  /** The buckets the dashboard builds before sorting. */
  function MonthBuckets(ts: seq<Transaction>, today: Date, fixed: seq<string>): seq<MonthlyData> {
    Fill(Seed(TrailingMonths(today)), ts, fixed, MonthOf)
  }

  // The reference definition: a bucket is the analysis of its month's expenses.

  /** The transactions counted in month `k`, in their original order. */
  function InMonth(ts: seq<Transaction>, k: MonthKey, monthOf: Transaction -> Option<MonthKey>): (r: seq<Transaction>)
    ensures forall t :: t in r <==> t in ts && monthOf(t) == Some(k)
  {
    Filter(ts, CountedIn(k, monthOf))
  }

  /** The filter predicate of month `k`. */
  function CountedIn(k: MonthKey, monthOf: Transaction -> Option<MonthKey>): Transaction -> bool {
    t => monthOf(t) == Some(k)
  }

  lemma InMonthSnoc(ts: seq<Transaction>, t: Transaction, k: MonthKey, monthOf: Transaction -> Option<MonthKey>)
    ensures monthOf(t) == Some(k) ==> InMonth(ts + [t], k, monthOf) == InMonth(ts, k, monthOf) + [t]
    ensures monthOf(t) != Some(k) ==> InMonth(ts + [t], k, monthOf) == InMonth(ts, k, monthOf)
  {
    FilterSnoc(ts, t, CountedIn(k, monthOf));
    if monthOf(t) != Some(k) {
      assert InMonth(ts, k, monthOf) + [] == InMonth(ts, k, monthOf);
    }
  }

  /** The bucket holds exactly what analyzeTransactions computes over its month's
      expenses, and its total is fixed + flexible. */
  predicate BucketIsMonth(b: MonthlyData, ts: seq<Transaction>, fixed: seq<string>, monthOf: Transaction -> Option<MonthKey>) {
    SummaryOf(b) == Analyze(InMonth(ts, b.key, monthOf), fixed) && b.total == b.fixedTotal + b.flexibleTotal
  }

  predicate WellFormed(bs: seq<MonthlyData>, ts: seq<Transaction>, fixed: seq<string>, monthOf: Transaction -> Option<MonthKey>) {
    NoDup(Keys(bs)) && forall j :: 0 <= j < |bs| ==> BucketIsMonth(bs[j], ts, fixed, monthOf)
  }

  /** Every month with a counted transaction has a bucket. */
  ghost predicate Covers(bs: seq<MonthlyData>, ts: seq<Transaction>, monthOf: Transaction -> Option<MonthKey>) {
    forall k :: InMonth(ts, k, monthOf) != [] ==> k in Keys(bs)
  }

  lemma AnalyzeSnoc(ts: seq<Transaction>, t: Transaction, fixed: seq<string>)
    ensures Analyze(ts + [t], fixed) == Record(Analyze(ts, fixed), t, fixed)
  {
    assert (ts + [t])[..|ts|] == ts;
  }

  /** A bucket of another month is unaffected by a transaction. */
  lemma OtherBucketUnchanged(b: MonthlyData, ts: seq<Transaction>, t: Transaction, fixed: seq<string>, monthOf: Transaction -> Option<MonthKey>)
    requires BucketIsMonth(b, ts, fixed, monthOf) && monthOf(t) != Some(b.key)
    ensures BucketIsMonth(b, ts + [t], fixed, monthOf)
  {
    InMonthSnoc(ts, t, b.key, monthOf);
  }

  /** The bucket of the transaction's month receives it. */
  lemma OwnBucketUpdated(b: MonthlyData, ts: seq<Transaction>, t: Transaction, fixed: seq<string>, monthOf: Transaction -> Option<MonthKey>)
    requires BucketIsMonth(b, ts, fixed, monthOf) && monthOf(t) == Some(b.key) && IsExpense(t)
    ensures BucketIsMonth(AddExpense(b, t, fixed), ts + [t], fixed, monthOf)
  {
    InMonthSnoc(ts, t, b.key, monthOf);
    AnalyzeSnoc(InMonth(ts, b.key, monthOf), t, fixed);
  }

  /** A transaction in a month that already has a bucket updates that bucket only. */
  lemma PlaceIntoExisting(bs: seq<MonthlyData>, ts: seq<Transaction>, t: Transaction, fixed: seq<string>,
                          monthOf: Transaction -> Option<MonthKey>, j: nat)
    requires WellFormed(bs, ts, fixed, monthOf) && IsExpense(t)
    requires monthOf(t).Some? && IndexOfKey(bs, monthOf(t).value) == Some(j)
    ensures WellFormed(bs[j := AddExpense(bs[j], t, fixed)], ts + [t], fixed, monthOf)
  {
    var r := bs[j := AddExpense(bs[j], t, fixed)];
    assert Keys(r) == Keys(bs);
    forall i | 0 <= i < |r| ensures BucketIsMonth(r[i], ts + [t], fixed, monthOf) {
      if i != j {
        assert Keys(bs)[i] != Keys(bs)[j];
        OtherBucketUnchanged(bs[i], ts, t, fixed, monthOf);
      } else {
        OwnBucketUpdated(bs[j], ts, t, fixed, monthOf);
      }
    }
  }

  /** A transaction in a month without a bucket adds one holding just that transaction. */
  lemma PlaceIntoNew(bs: seq<MonthlyData>, ts: seq<Transaction>, t: Transaction, fixed: seq<string>,
                     monthOf: Transaction -> Option<MonthKey>)
    requires WellFormed(bs, ts, fixed, monthOf) && Covers(bs, ts, monthOf) && IsExpense(t)
    requires monthOf(t).Some? && monthOf(t).value !in Keys(bs)
    ensures WellFormed(bs + [AddExpense(EmptyBucket(monthOf(t).value), t, fixed)], ts + [t], fixed, monthOf)
  {
    var k := monthOf(t).value;
    var r := bs + [AddExpense(EmptyBucket(k), t, fixed)];
    assert Keys(r) == Keys(bs) + [k];
    assert BucketIsMonth(EmptyBucket(k), ts, fixed, monthOf) by {
      assert InMonth(ts, k, monthOf) == [];
    }
    forall i | 0 <= i < |r| ensures BucketIsMonth(r[i], ts + [t], fixed, monthOf) {
      if i < |bs| {
        assert Keys(bs)[i] == r[i].key;
        OtherBucketUnchanged(bs[i], ts, t, fixed, monthOf);
      } else {
        OwnBucketUpdated(EmptyBucket(k), ts, t, fixed, monthOf);
      }
    }
  }

  /** A skipped transaction changes no month. */
  lemma PlaceSkipped(bs: seq<MonthlyData>, ts: seq<Transaction>, t: Transaction, fixed: seq<string>,
                     monthOf: Transaction -> Option<MonthKey>)
    requires WellFormed(bs, ts, fixed, monthOf) && monthOf(t).None?
    ensures WellFormed(bs, ts + [t], fixed, monthOf)
  {
    forall i | 0 <= i < |bs| ensures BucketIsMonth(bs[i], ts + [t], fixed, monthOf) {
      OtherBucketUnchanged(bs[i], ts, t, fixed, monthOf);
    }
  }

  lemma PlaceKeepsWellFormed(bs: seq<MonthlyData>, ts: seq<Transaction>, t: Transaction, fixed: seq<string>,
                             monthOf: Transaction -> Option<MonthKey>)
    requires WellFormed(bs, ts, fixed, monthOf) && Covers(bs, ts, monthOf) && CountsExpenses(monthOf)
    ensures WellFormed(Place(bs, t, fixed, monthOf), ts + [t], fixed, monthOf)
  {
    match monthOf(t)
    case None =>
      PlaceSkipped(bs, ts, t, fixed, monthOf);
    case Some(k) =>
      match IndexOfKey(bs, k)
      case Some(j) =>
        PlaceIntoExisting(bs, ts, t, fixed, monthOf, j);
      case None =>
        PlaceIntoNew(bs, ts, t, fixed, monthOf);
  }

  /** Placing a transaction adds at most its own month's key. */
  lemma PlaceKeys(bs: seq<MonthlyData>, t: Transaction, fixed: seq<string>, monthOf: Transaction -> Option<MonthKey>)
    ensures forall k :: k in Keys(Place(bs, t, fixed, monthOf)) <==> k in Keys(bs) || monthOf(t) == Some(k)
  {
    match monthOf(t)
    case None =>
    case Some(k) =>
      match IndexOfKey(bs, k)
      case Some(j) =>
        assert Keys(Place(bs, t, fixed, monthOf)) == Keys(bs);
      case None =>
        assert Keys(Place(bs, t, fixed, monthOf)) == Keys(bs) + [k];
  }

  /** Building from empty buckets with distinct keys: every bucket is the analysis of its
      month, keys stay distinct, and the keys are the initial ones plus the months of the
      counted transactions. */
  lemma {:induction false} FillWellFormed(bs: seq<MonthlyData>, ts: seq<Transaction>, fixed: seq<string>,
                                          monthOf: Transaction -> Option<MonthKey>)
    requires NoDup(Keys(bs)) && CountsExpenses(monthOf)
    requires forall j :: 0 <= j < |bs| ==> bs[j] == EmptyBucket(bs[j].key)
    ensures WellFormed(Fill(bs, ts, fixed, monthOf), ts, fixed, monthOf)
    ensures forall k :: k in Keys(Fill(bs, ts, fixed, monthOf)) <==> k in Keys(bs) || InMonth(ts, k, monthOf) != []
  {
    if ts == [] {
      forall k ensures InMonth(ts, k, monthOf) == [] { }
    } else {
      var front, t := ts[..|ts| - 1], ts[|ts| - 1];
      assert ts == front + [t];
      FillWellFormed(bs, front, fixed, monthOf);
      PlaceKeepsWellFormed(Fill(bs, front, fixed, monthOf), front, t, fixed, monthOf);
      PlaceKeys(Fill(bs, front, fixed, monthOf), t, fixed, monthOf);
      forall k ensures InMonth(ts, k, monthOf) != [] <==> InMonth(front, k, monthOf) != [] || monthOf(t) == Some(k) {
        InMonthSnoc(front, t, k, monthOf);
      }
    }
  }

  /** The dashboard's buckets: distinct keys, the six trailing months always present, a
      bucket for exactly the other months some counted transaction falls in, and each bucket
      the analysis of its month's expenses. */
  lemma MonthBucketsAreMonthlyAnalyses(ts: seq<Transaction>, today: Date, fixed: seq<string>)
    ensures var bs := MonthBuckets(ts, today, fixed);
      && NoDup(Keys(bs))
      && (forall k :: k in Keys(bs) <==> k in TrailingMonths(today) || InMonth(ts, k, MonthOf) != [])
      && forall j :: 0 <= j < |bs| ==> BucketIsMonth(bs[j], ts, fixed, MonthOf)
  {
    MonthOfCountsExpenses();
    FillWellFormed(Seed(TrailingMonths(today)), ts, fixed, MonthOf);
  }

  /** Per bucket: total = fixed + flexible = the sum of its category amounts = the sum of
      |Amount| over its month's expenses, and neither part is negative. */
  lemma BucketConservation(b: MonthlyData, ts: seq<Transaction>, fixed: seq<string>)
    requires BucketIsMonth(b, ts, fixed, MonthOf)
    ensures b.total == b.fixedTotal + b.flexibleTotal == Sum(b.categories) == ExpenseSum(InMonth(ts, b.key, MonthOf))
    ensures b.fixedTotal >= 0 && b.flexibleTotal >= 0
  {
    SummaryConservation(InMonth(ts, b.key, MonthOf), fixed);
  }

  /** A counted transaction lands in exactly one bucket: the one keyed by its month. */
  lemma LandsInItsMonth(ts: seq<Transaction>, today: Date, fixed: seq<string>, t: Transaction)
    requires t in ts && MonthOf(t).Some?
    ensures var bs := MonthBuckets(ts, today, fixed);
      && MonthOf(t).value in Keys(bs)
      && forall j :: 0 <= j < |bs| ==> (t in InMonth(ts, bs[j].key, MonthOf) <==> bs[j].key == MonthOf(t).value)
  {
    MonthBucketsAreMonthlyAnalyses(ts, today, fixed);
    assert t in InMonth(ts, MonthOf(t).value, MonthOf);
  }

  /** The useEffect's bucket loops: the six seeded months, then the forEach over the
      transactions with its in-place `+=` updates. */
  method BuildMonthlyData(ts: seq<Transaction>, today: Date, fixed: seq<string>) returns (monthData: seq<MonthlyData>)
    ensures monthData == MonthBuckets(ts, today, fixed)
  {
    monthData := SeedMonths(today);
    monthData := AddTransactions(monthData, ts, fixed);
  }

  /** The loop that seeds this month and the five before it with empty buckets. */
  method SeedMonths(today: Date) returns (monthData: seq<MonthlyData>)
    ensures monthData == Seed(TrailingMonths(today))
  {
    var keys := TrailingMonths(today);
    monthData := [];
    for i := 0 to 6
      invariant monthData == Seed(keys[..i])
    {
      var monthKey := TrailingKey(today, i);
      assert keys[..i + 1] == keys[..i] + [monthKey];
      SeedSnoc(keys[..i], monthKey);
      monthData := monthData + [EmptyBucket(monthKey)];
    }
    assert keys[..6] == keys;
  }

  /** The forEach over the transactions: each counted one goes to the bucket of its month. */
  method AddTransactions(seeded: seq<MonthlyData>, ts: seq<Transaction>, fixed: seq<string>) returns (monthData: seq<MonthlyData>)
    ensures monthData == Fill(seeded, ts, fixed, MonthOf)
  {
    monthData := seeded;
    var i := 0;
    while i < |ts|
      invariant 0 <= i <= |ts|
      invariant monthData == Fill(seeded, ts[..i], fixed, MonthOf)
    {
      assert ts[..i + 1][..i] == ts[..i];
      var transaction := ts[i];
      ghost var before := monthData;
      if transaction.date != "" && AmountOf(transaction) < 0 {
        var transactionDate := ParseTransactionDate(transaction.date);
        if transactionDate.Some? {
          var monthKey := match transactionDate.value
            case Valid(d) => KeyOfIndex(MonthIndex(d.year, d.month))
            case Invalid => InvalidMonth;
          assert MonthOf(transaction) == Some(monthKey);
          monthData := AddToMonth(monthData, monthKey, transaction, fixed);
        }
      }
      assert monthData == Place(before, transaction, fixed, MonthOf);
      i := i + 1;
    }
    assert ts[..i] == ts;
  }

  /** `monthData[monthKey]`, created first if absent, receives the transaction. */
  method AddToMonth(monthData: seq<MonthlyData>, monthKey: MonthKey, transaction: Transaction, fixed: seq<string>)
    returns (updated: seq<MonthlyData>)
    requires IsExpense(transaction)
    ensures updated == match IndexOfKey(monthData, monthKey)
      case Some(j) => monthData[j := AddExpense(monthData[j], transaction, fixed)]
      case None => monthData + [AddExpense(EmptyBucket(monthKey), transaction, fixed)]
  {
    var j := IndexOfKey(monthData, monthKey);
    if j.Some? {
      var bucket := AddToBucket(monthData[j.value], transaction, fixed);
      updated := monthData[j.value := bucket];
    } else {
      var bucket := AddToBucket(EmptyBucket(monthKey), transaction, fixed);
      updated := monthData + [bucket];
    }
  }

  /** The `+=` updates of one bucket: its category entry, its fixed or flexible total and its
      grand total grow by |Amount|. */
  method AddToBucket(bucket: MonthlyData, transaction: Transaction, fixed: seq<string>) returns (updated: MonthlyData)
    ensures updated == AddExpense(bucket, transaction, fixed)
  {
    var category := CategoryOf(transaction);
    var amount := Magnitude(transaction);
    var categories := Add(bucket.categories, category, amount);
    var fixedTotal, flexibleTotal := bucket.fixedTotal, bucket.flexibleTotal;
    if category in fixed {
      fixedTotal := fixedTotal + amount;
    } else {
      flexibleTotal := flexibleTotal + amount;
    }
    updated := MonthlyData(bucket.key, fixedTotal, flexibleTotal, bucket.total + amount, categories);
  }

  lemma SeedSnoc(keys: seq<MonthKey>, k: MonthKey)
    ensures Seed(keys + [k]) == Seed(keys) + [EmptyBucket(k)]
  {
    var r := Seed(keys + [k]);
    assert Keys(r) == keys + [k];
  }

  // Ordering: most recent month first.

  predicate IsDated(b: MonthlyData) {
    b.key.YearMonth?
  }

  predicate IsUndated(b: MonthlyData) {
    b.key.InvalidMonth?
  }

  /** The month number a dated bucket sorts by. */
  function MonthRank(b: MonthlyData): real {
    match b.key
    case YearMonth(y, m) => MonthIndex(y, m) as real
    case InvalidMonth => 0.0
  }

  /** The buckets ordered by month, most recent first, with the Invalid Date's bucket last. */
  function SortMonths(bs: seq<MonthlyData>): (r: seq<MonthlyData>)
    ensures multiset(r) == multiset(bs)
    ensures forall i, j :: 0 <= i < j < |r| && IsDated(r[j]) ==> IsDated(r[i]) && MonthRank(r[i]) >= MonthRank(r[j])
  {
    SortMonthsParts(bs);
    SortDesc(Filter(bs, IsDated), MonthRank) + Filter(bs, IsUndated)
  }

  /** The sorted dated buckets and the undated ones together are the buckets. */
  lemma SortMonthsParts(bs: seq<MonthlyData>)
    ensures var sorted, undated := SortDesc(Filter(bs, IsDated), MonthRank), Filter(bs, IsUndated);
      && multiset(sorted) + multiset(undated) == multiset(bs)
      && (forall i :: 0 <= i < |sorted| ==> IsDated(sorted[i]))
      && (forall i :: 0 <= i < |undated| ==> !IsDated(undated[i]))
  {
    var dated, undated := Filter(bs, IsDated), Filter(bs, IsUndated);
    var sorted := SortDesc(dated, MonthRank);
    FilterPartition(bs, IsDated, IsUndated);
    forall i | 0 <= i < |sorted| ensures IsDated(sorted[i]) {
      assert sorted[i] in multiset(dated);
    }
    forall i | 0 <= i < |undated| ensures !IsDated(undated[i]) {
      assert undated[i] in undated;
    }
  }
}
