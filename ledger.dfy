/** Category totals as the engine keeps them: a JavaScript object used as a dictionary from
    category name to an accumulated amount. Object keys iterate in insertion order for names
    that are not array indices, so the model is a sequence of entries, one per name, in the
    order names were first added. Array-index names (which Object.keys lists first, in
    ascending order) and names inherited from Object.prototype are not told apart. */
module Ledger {
  import opened Seqs

  datatype Entry = Entry(name: string, amount: int)

  type Totals = seq<Entry>

  /** The names, in insertion order (Object.keys, for names that are not array indices). */
  function Names(t: Totals): (r: seq<string>)
    ensures |r| == |t|
    ensures forall i :: 0 <= i < |t| ==> r[i] == t[i].name
  {
    if t == [] then [] else [t[0].name] + Names(t[1..])
  }

  /** `totals[k] || 0`: the amount recorded for `k`, or 0 when `k` has none. */
  function Get(t: Totals, k: string): (r: int)
    ensures k !in Names(t) ==> r == 0
    ensures forall i :: 0 <= i < |t| && t[i].name == k && NoDup(Names(t)) ==> r == t[i].amount
  {
    if t == [] then 0
    else if t[0].name == k then t[0].amount
    else
      assert NoDup(Names(t)) ==> NoDup(Names(t[1..])) by {
        assert forall i :: 0 <= i < |t| - 1 ==> Names(t[1..])[i] == Names(t)[i + 1];
      }
      Get(t[1..], k)
  }

  /** The sum of all recorded amounts. */
  function Sum(t: Totals): int {
    if t == [] then 0 else t[0].amount + Sum(t[1..])
  }

  /** `if (!totals[k]) totals[k] = 0; totals[k] += a`: the entry for `k` grows by `a`, or a new
      entry is appended at the end. No other entry changes, and the sum grows by `a`. */
  function Add(t: Totals, k: string, a: int): (r: Totals)
    ensures Names(r) == if k in Names(t) then Names(t) else Names(t) + [k]
    ensures forall j :: Get(r, j) == Get(t, j) + (if j == k then a else 0)
    ensures Sum(r) == Sum(t) + a
  {
    if t == [] then [Entry(k, a)]
    else if t[0].name == k then [t[0].(amount := t[0].amount + a)] + t[1..]
    else
      var rest := Add(t[1..], k, a);
      assert Names(t) == [t[0].name] + Names(t[1..]);
      assert ([t[0]] + rest)[1..] == rest;
      [t[0]] + rest
  }

  /** Every recorded amount is positive. */
  predicate AllPositive(t: Totals) {
    forall i :: 0 <= i < |t| ==> t[i].amount > 0
  }
}
