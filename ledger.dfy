/** The per-record arithmetic of the handlers in index.js: adding a posted
    amount to an existing record, building a new one, classifying a budget
    change, and removing an id from an id list. The store-level handlers in
    module Handlers are built on these. */
module Ledger {
  import opened Schema

  /** Posting `amount` to an existing Data record: the running total grows by
      `amount` and one history entry is appended (index.js:145-146). */
  function Deposit(d: Data, amount: int, now: int): (r: Data)
    ensures r.user == d.user && r.category == d.category
    ensures r.amount == d.amount + amount
    ensures |r.history| == |d.history| + 1 && r.history[..|d.history|] == d.history
    ensures r.history[|d.history|] == HistoryEntry(amount, now)
    ensures Total(r.history) == Total(d.history) + amount
    ensures Balanced(d) ==> Balanced(r)
  {
    TotalAppend(d.history, HistoryEntry(amount, now));
    d.(amount := d.amount + amount, history := d.history + [HistoryEntry(amount, now)])
  }

  /** A Data record created by the first post to a category
      (index.js:154-160); the request's `budget` is not stored. */
  function NewData(user: nat, category: string, amount: int, now: int): (r: Data)
    ensures r.user == user && r.category == category && r.amount == amount
    ensures r.history == [HistoryEntry(amount, now)]
    ensures Balanced(r)
  {
    TotalAppend([], HistoryEntry(amount, now));
    assert [] + [HistoryEntry(amount, now)] == [HistoryEntry(amount, now)];
    Data(user, category, amount, [HistoryEntry(amount, now)])
  }

  /** A valid record stays valid after a deposit exactly when the deposit is
      non-negative: a negative post fails the history entry's `min: 0`. */
  lemma DepositValidIff(d: Data, amount: int, now: int)
    requires ValidData(d)
    ensures ValidData(Deposit(d, amount, now)) <==> amount >= 0
  {
    var r := Deposit(d, amount, now);
    if amount < 0 {
      assert r.history[|d.history|].amount < 0;
    } else {
      forall i | 0 <= i < |r.history|
        ensures r.history[i].amount >= 0
      {
        if i < |d.history| {
          assert r.history[i] == r.history[..|d.history|][i];
        }
      }
    }
  }

  /** A new record passes validation exactly when the category is present
      and the amount is non-negative. */
  lemma NewDataValidIff(user: nat, category: string, amount: int, now: int)
    ensures ValidData(NewData(user, category, amount, now)) <==> Present(category) && amount >= 0
  {
    var r := NewData(user, category, amount, now);
    assert r.history[0].amount == amount;
  }

  /** Direction of a budget change, compared with the stored value. */
  datatype Trend = Decreased | Increased | Unchanged

  /** What a successful budget update reports: the direction, the new value
      and the previous one (index.js:192-209). */
  datatype BudgetReport = BudgetReport(trend: Trend, budgetAmount: int, prevBudget: int)

  function Classify(prev: int, next: int): (t: Trend)
    ensures t == Decreased <==> prev > next
    ensures t == Increased <==> prev < next
    ensures t == Unchanged <==> prev == next
  {
    if prev > next then Decreased
    else if prev < next then Increased
    else Unchanged
  }

  /** No id occurs twice in the list. */
  predicate NoDup(ids: seq<nat>)
  {
    forall i, j :: 0 <= i < j < |ids| ==> ids[i] != ids[j]
  }

  /** Appending an id not yet listed keeps the list duplicate-free. */
  lemma AppendNoDup(ids: seq<nat>, x: nat)
    requires NoDup(ids) && x !in ids
    ensures NoDup(ids + [x])
  {
  }

  /** The list with every occurrence of `x` removed (index.js:250). */
  function Without(ids: seq<nat>, x: nat): (r: seq<nat>)
    ensures forall y :: y in r <==> y in ids && y != x
    ensures NoDup(ids) ==> NoDup(r)
    ensures x !in ids ==> r == ids
  {
    if ids == [] then []
    else if ids[0] == x then Without(ids[1..], x)
    else
      var rest := Without(ids[1..], x);
      assert NoDup(ids) ==> ids[0] !in ids[1..];
      [ids[0]] + rest
  }
}
