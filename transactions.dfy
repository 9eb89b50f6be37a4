/** Transactions, their dates, and the inclusive date-range filter
    (client/src/lib/types.ts, client/src/pages/SpendingTracker.tsx). */
module Transactions {
  import opened Wrappers
  import opened Text
  import opened Seqs

  const Uncategorized := "Uncategorized"
  const ReviewLater := "Review Later"
  const FlaggedForReview := "Flagged for Review"

  /** The categories counted as fixed spending when the page is first rendered. */
  const DefaultFixedCategories: seq<string> := ["Bills & Utilities", "Home", "Education"]

  /** One bank-statement row as the CSV parser delivers it. `amount` is in cents; None stands
      for an empty cell, which the parser delivers as null, and likewise for the optional text
      columns. A field missing altogether (undefined, as in a row shorter than the header) is
      not modelled. `kind` is the
      CSV's Type column. */
  datatype Transaction = Transaction(
    date: string,
    description: string,
    amount: Option<int>,
    category: Option<string>,
    kind: Option<string>,
    memo: Option<string>)

  /** `t.Category || 'Uncategorized'`: an absent or empty category reads as Uncategorized. */
  function CategoryOf(t: Transaction): (c: string)
    ensures c != ""
    ensures t.category.Some? && t.category.value != "" ==> c == t.category.value
    ensures (t.category.None? || t.category.value == "") ==> c == Uncategorized
  {
    if t.category.Some? && t.category.value != "" then t.category.value else Uncategorized
  }

  /** `t.Amount || 0`. */
  function AmountOf(t: Transaction): int {
    t.amount.GetOr(0)
  }

  /** Only negative amounts are expenses; income and missing amounts are skipped. */
  predicate IsExpense(t: Transaction) {
    AmountOf(t) < 0
  }

  /** `Math.abs(t.Amount)`. */
  function Magnitude(t: Transaction): (m: nat)
    ensures IsExpense(t) ==> m == -AmountOf(t) && m > 0
  {
    if AmountOf(t) < 0 then -AmountOf(t) else AmountOf(t)
  }

  /** `{ ...t, Category: c }`. */
  function WithCategory(t: Transaction, c: string): Transaction {
    t.(category := Some(c))
  }

  /** The identity the live page matches on: date, description and amount. */
  predicate SameKey(a: Transaction, b: Transaction) {
    a.date == b.date && a.description == b.description && a.amount == b.amount
  }

  /** The identity the older variant matches on: the five fields it serialises. */
  predicate SameRecord(a: Transaction, b: Transaction) {
    SameKey(a, b) && a.kind == b.kind && a.memo == b.memo
  }

  /** A calendar date as a (year, month, day) triple, month 1-12. */
  datatype Date = Date(year: int, month: int, day: int)

  /** Date order: by year, then month, then day. */
  predicate DateLe(a: Date, b: Date) {
    a.year < b.year || (a.year == b.year && (a.month < b.month || (a.month == b.month && a.day <= b.day)))
  }

  /** What `new Date(y, m - 1, d)` gives: a valid date, or an Invalid Date when a part is NaN.
      An Invalid Date is a truthy object whose every comparison is false. */
  datatype ParsedDate = Valid(date: Date) | Invalid

  /** The Date constructor reads a year from 0 to 99 as 1900 to 1999. */
  function FullYear(y: int): int {
    if 0 <= y <= 99 then 1900 + y else y
  }

  /** parseTransactionDate: null for an empty string or one that does not split into exactly
      three '/'-separated parts; otherwise the date with month from part 1, day from part 2
      and year from part 3. */
  function ParseTransactionDate(s: string): (r: Option<ParsedDate>)
    ensures r.None? <==> s == "" || |Split(s, '/')| != 3
    ensures r.Some? ==>
      var parts := Split(s, '/');
      var month, day, year := ParseInt(parts[0]), ParseInt(parts[1]), ParseInt(parts[2]);
      && (r.value.Valid? <==> month.Some? && day.Some? && year.Some?)
      && (r.value.Valid? ==> r.value.date == Date(FullYear(year.value), month.value, day.value))
  {
    if s == "" then None
    else
      var parts := Split(s, '/');
      if |parts| != 3 then None
      else
        var month, day, year := ParseInt(parts[0]), ParseInt(parts[1]), ParseInt(parts[2]);
        if month.Some? && day.Some? && year.Some? then
          Some(Valid(Date(FullYear(year.value), month.value, day.value)))
        else
          Some(Invalid)
  }

  /** A date written the way bank statements write it: M/D/Y. */
  function FormatTransactionDate(d: Date): string {
    IntToString(d.month) + "/" + IntToString(d.day) + "/" + IntToString(d.year)
  }

  lemma NumeralHasNoSlash(n: int)
    ensures '/' !in IntToString(n)
  {
    var s := IntToString(n);
    forall i | 0 <= i < |s| ensures s[i] != '/' {
      if n < 0 && i > 0 {
        assert s[i] == NatToString(-n)[i - 1];
      }
    }
  }

  lemma FormatIsJoin(d: Date)
    ensures FormatTransactionDate(d) == Join([IntToString(d.month), IntToString(d.day), IntToString(d.year)], '/')
  {
    var parts := [IntToString(d.month), IntToString(d.day), IntToString(d.year)];
    assert Join(parts[2..], '/') == parts[2];
    assert Join(parts[1..], '/') == parts[1] + "/" + parts[2];
  }

  lemma ParseThreeParts(s: string, parts: seq<string>, month: int, day: int, year: int)
    requires s != "" && Split(s, '/') == parts && |parts| == 3
    requires ParseInt(parts[0]) == Some(month) && ParseInt(parts[1]) == Some(day) && ParseInt(parts[2]) == Some(year)
    ensures ParseTransactionDate(s) == Some(Valid(Date(FullYear(year), month, day)))
  {
  }

  /** Parsing a formatted date gives the date back, except that the Date constructor moves
      a year from 0 to 99 into the 1900s. */
  lemma ParseFormattedDate(d: Date)
    ensures ParseTransactionDate(FormatTransactionDate(d)) == Some(Valid(d.(year := FullYear(d.year))))
  {
    var parts := [IntToString(d.month), IntToString(d.day), IntToString(d.year)];
    NumeralHasNoSlash(d.month);
    NumeralHasNoSlash(d.day);
    NumeralHasNoSlash(d.year);
    FormatIsJoin(d);
    SplitJoin(parts, '/');
    ParseIntOfNumeral(d.month, "");
    ParseIntOfNumeral(d.day, "");
    ParseIntOfNumeral(d.year, "");
    assert parts[0] + "" == parts[0] && parts[1] + "" == parts[1] && parts[2] + "" == parts[2];
    var s := FormatTransactionDate(d);
    assert s != "" by {
      assert |s| >= |parts[0]| > 0;
    }
    ParseThreeParts(s, parts, d.month, d.day, d.year);
  }

  /** The date-range predicate of filterTransactionsByDate: the date parses to a valid date
      and start <= date <= end. */
  predicate InRange(t: Transaction, start: Date, end: Date) {
    match ParseTransactionDate(t.date)
    case Some(Valid(d)) => DateLe(start, d) && DateLe(d, end)
    case _ => false
  }

  /** The transactions whose date lies in [start, end], in their original order. */
  function FilterByDate(ts: seq<Transaction>, start: Date, end: Date): (r: seq<Transaction>)
    ensures |r| <= |ts|
    ensures forall t :: t in r <==> t in ts && InRange(t, start, end)
    ensures forall t :: InRange(t, start, end) ==> multiset(r)[t] == multiset(ts)[t]
  {
    FilterCounts(ts, InDateRange(start, end));
    Filter(ts, InDateRange(start, end))
  }

  function InDateRange(start: Date, end: Date): Transaction -> bool {
    t => InRange(t, start, end)
  }

  /** Filtering again with the same bounds changes nothing. */
  lemma FilterByDateIdempotent(ts: seq<Transaction>, start: Date, end: Date)
    ensures FilterByDate(FilterByDate(ts, start, end), start, end) == FilterByDate(ts, start, end)
  {
    FilterIdempotent(ts, InDateRange(start, end));
  }

  /** Filtering an extended list filters the old list and the new rows separately. */
  lemma FilterByDateAppend(a: seq<Transaction>, b: seq<Transaction>, start: Date, end: Date)
    ensures FilterByDate(a + b, start, end) == FilterByDate(a, start, end) + FilterByDate(b, start, end)
  {
    FilterAppend(a, b, InDateRange(start, end));
  }
}
