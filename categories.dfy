/** The list of categories offered after an import: every category that occurs, then
    'Uncategorized', the two review pseudo-categories and the fixed categories, each once. */
module Categories {
  import opened Wrappers
  import opened Seqs
  import opened Transactions

  /** `[...new Set(xs)]`: each value once, at its first occurrence. */
  function Dedup(xs: seq<string>): seq<string> {
    if xs == [] then [] else AppendIfMissing(Dedup(xs[..|xs| - 1]), xs[|xs| - 1])
  }

  /** The set of a list keeps each value once and holds exactly the values of the list. */
  lemma {:induction false} DedupFacts(xs: seq<string>)
    ensures NoDup(Dedup(xs))
    ensures forall x :: x in Dedup(xs) <==> x in xs
  {
    if xs != [] {
      var init, last := xs[..|xs| - 1], xs[|xs| - 1];
      DedupFacts(init);
      AppendIfMissingFacts(Dedup(init), last);
      assert xs == init + [last];
    }
  }

  /** Appends each of `xs` that is not already present, in order. */
  function AppendAllMissing(s: seq<string>, xs: seq<string>): seq<string> {
    if xs == [] then s else AppendIfMissing(AppendAllMissing(s, xs[..|xs| - 1]), xs[|xs| - 1])
  }

  /** Appending the missing ones adds exactly the values of `xs`, and no duplicate. */
  lemma {:induction false} AppendAllMissingFacts(s: seq<string>, xs: seq<string>)
    ensures NoDup(s) ==> NoDup(AppendAllMissing(s, xs))
    ensures forall x :: x in AppendAllMissing(s, xs) <==> x in s || x in xs
  {
    if xs != [] {
      var init, last := xs[..|xs| - 1], xs[|xs| - 1];
      AppendAllMissingFacts(s, init);
      AppendIfMissingFacts(AppendAllMissing(s, init), last);
      assert xs == init + [last];
    }
  }

  /** The category of `t` when it is present and non-empty (`t.Category` is truthy). */
  predicate HasNamedCategory(t: Transaction) {
    t.category.Some? && t.category.value != ""
  }

  /** `ts.filter(t => t.Category).map(t => t.Category)`. */
  function NamedCategories(ts: seq<Transaction>): (r: seq<string>)
    ensures forall c :: c in r ==> c != ""
  {
    if ts == [] then []
    else
      var t := ts[|ts| - 1];
      NamedCategories(ts[..|ts| - 1]) + (if HasNamedCategory(t) then [t.category.value] else [])
  }

  /** Some transaction of `ts` carries the non-empty category `c`. */
  predicate Mentions(ts: seq<Transaction>, c: string) {
    exists i :: 0 <= i < |ts| && HasNamedCategory(ts[i]) && ts[i].category.value == c
  }

  lemma {:induction false} NamedCategoriesMembership(ts: seq<Transaction>, c: string)
    ensures c in NamedCategories(ts) <==> Mentions(ts, c)
  {
    if ts != [] {
      var init := ts[..|ts| - 1];
      NamedCategoriesMembership(init, c);
      if Mentions(ts, c) {
        var i :| 0 <= i < |ts| && HasNamedCategory(ts[i]) && ts[i].category.value == c;
        if i < |init| {
          assert init[i] == ts[i];
        }
      }
      if Mentions(init, c) {
        var i :| 0 <= i < |init| && HasNamedCategory(init[i]) && init[i].category.value == c;
        assert ts[i] == init[i];
      }
    }
  }

  /** The category list built by parseCSV from the transactions `ts`. */
  function CategoryList(ts: seq<Transaction>, fixed: seq<string>): seq<string> {
    var categories := Dedup(NamedCategories(ts));
    var categories := AppendIfMissing(categories, Uncategorized);
    var categories := AppendIfMissing(categories, ReviewLater);
    var categories := AppendIfMissing(categories, FlaggedForReview);
    AppendAllMissing(categories, fixed)
  }

  /** The category list has no duplicates, and holds exactly the categories that occur in
      `ts`, 'Uncategorized', 'Review Later', 'Flagged for Review' and the fixed categories. */
  lemma CategoryListContents(ts: seq<Transaction>, fixed: seq<string>)
    ensures NoDup(CategoryList(ts, fixed))
    ensures forall c :: c in CategoryList(ts, fixed) <==>
      Mentions(ts, c) || c == Uncategorized || c == ReviewLater || c == FlaggedForReview || c in fixed
  {
    var named := NamedCategories(ts);
    DedupFacts(named);
    var unique := Dedup(named);
    AppendIfMissingFacts(unique, Uncategorized);
    var withUncategorized := AppendIfMissing(unique, Uncategorized);
    AppendIfMissingFacts(withUncategorized, ReviewLater);
    var withReview := AppendIfMissing(withUncategorized, ReviewLater);
    AppendIfMissingFacts(withReview, FlaggedForReview);
    var special := AppendIfMissing(withReview, FlaggedForReview);
    AppendAllMissingFacts(special, fixed);
    forall c ensures c in named <==> Mentions(ts, c) {
      NamedCategoriesMembership(ts, c);
    }
  }

  /** The category-list building of parseCSV: a Set of the categories that occur, then
      pushes guarded by `includes`. */
  method BuildCategoryList(ts: seq<Transaction>, fixed: seq<string>) returns (categories: seq<string>)
    ensures categories == CategoryList(ts, fixed) && NoDup(categories)
  {
    categories := [];
    var i := 0;
    while i < |ts|
      invariant 0 <= i <= |ts|
      invariant categories == Dedup(NamedCategories(ts[..i]))
    {
      assert ts[..i + 1][..i] == ts[..i];
      var t := ts[i];
      assert NamedCategories(ts[..i + 1]) ==
        NamedCategories(ts[..i]) + (if HasNamedCategory(t) then [t.category.value] else []);
      if HasNamedCategory(t) {
        var named := NamedCategories(ts[..i + 1]);
        assert named[..|named| - 1] == NamedCategories(ts[..i]) && named[|named| - 1] == t.category.value;
        if t.category.value !in categories {
          categories := categories + [t.category.value];
        }
      } else {
        assert NamedCategories(ts[..i]) + [] == NamedCategories(ts[..i]);
      }
      i := i + 1;
    }
    assert ts[..i] == ts;
    if Uncategorized !in categories {
      categories := categories + [Uncategorized];
    }
    if ReviewLater !in categories {
      categories := categories + [ReviewLater];
    }
    if FlaggedForReview !in categories {
      categories := categories + [FlaggedForReview];
    }
    ghost var base := categories;
    var k := 0;
    while k < |fixed|
      invariant 0 <= k <= |fixed|
      invariant categories == AppendAllMissing(base, fixed[..k])
    {
      assert fixed[..k + 1][..k] == fixed[..k];
      if fixed[k] !in categories {
        categories := categories + [fixed[k]];
      }
      k := k + 1;
    }
    assert fixed[..k] == fixed;
    CategoryListContents(ts, fixed);
  }
}
