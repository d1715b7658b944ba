/**
 * The ledger operations of App.tsx as functions on the transaction and
 * subscription sequences: the four derived aggregates, the add and delete
 * handlers' new collections, and the per-record rewrite of a currency change.
 * The App class (app.dfy) assigns these results to its fields.
 */
module Ledger {
  import opened Types
  import opened Seqs
  import Currency

  function Abs(x: real): real
  {
    if x < 0.0 then -x else x
  }

  predicate IsIncome(t: Transaction) { t.kind == Income }
  predicate IsExpense(t: Transaction) { t.kind == Expense }
  function AmountOf(t: Transaction): real { t.amount }
  function MagnitudeOf(t: Transaction): real { Abs(t.amount) }
  predicate IsActive(s: Subscription) { s.active }
  function ChargeOf(s: Subscription): real { s.amount }

  /** The sign convention, non-strict: income is never negative, an expense never positive. */
  predicate SignConsistent(t: Transaction)
  {
    (t.kind == Income ==> t.amount >= 0.0) && (t.kind == Expense ==> t.amount <= 0.0)
  }

  /** The sign convention as the add handler establishes it: income above 0, an expense below 0. */
  predicate StrictlySigned(t: Transaction)
  {
    (t.kind == Income ==> t.amount > 0.0) && (t.kind == Expense ==> t.amount < 0.0)
  }

  ghost predicate AllSignConsistent(txs: seq<Transaction>)
  {
    forall i :: 0 <= i < |txs| ==> SignConsistent(txs[i])
  }

  /** Every subscription's billing day lies in the documented range. */
  ghost predicate AllBillingDaysValid(subs: seq<Subscription>)
  {
    forall i :: 0 <= i < |subs| ==> ValidBillingDay(subs[i].billingDay)
  }

  // ---------------------------------------------------------------- aggregates

  /** `totalIncome`: the amounts of the income entries, added up; never negative when no income entry is. */
  function TotalIncome(txs: seq<Transaction>): (r: real)
    ensures (forall i :: 0 <= i < |txs| && IsIncome(txs[i]) ==> txs[i].amount >= 0.0) ==> r >= 0.0
  {
    SumNonNegative(Filter(txs, IsIncome), AmountOf);
    Sum(Filter(txs, IsIncome), AmountOf)
  }

  /** `totalExpenses`: the magnitudes of the expense entries, added up; never negative. */
  function TotalExpenses(txs: seq<Transaction>): (r: real)
    ensures r >= 0.0
  {
    SumNonNegative(Filter(txs, IsExpense), MagnitudeOf);
    Sum(Filter(txs, IsExpense), MagnitudeOf)
  }

  /** `totalBalance`: income less expenses, so it never exceeds the income. */
  function TotalBalance(txs: seq<Transaction>): (r: real)
    ensures r <= TotalIncome(txs)
  {
    TotalIncome(txs) - TotalExpenses(txs)
  }

  /** `monthlySubscriptionCost`: the amounts of the active subscriptions, added up. */
  function MonthlySubscriptionCost(subs: seq<Subscription>): (r: real)
    ensures (forall i :: 0 <= i < |subs| && subs[i].active ==> subs[i].amount >= 0.0) ==> r >= 0.0
  {
    SumNonNegative(Filter(subs, IsActive), ChargeOf);
    Sum(Filter(subs, IsActive), ChargeOf)
  }

  /** The aggregates of a one-entry ledger. */
  lemma SingleTotals(t: Transaction)
    ensures TotalIncome([t]) == if t.kind == Income then t.amount else 0.0
    ensures TotalExpenses([t]) == if t.kind == Expense then Abs(t.amount) else 0.0
  {
    assert [t][1..] == [];
    assert Sum([t], AmountOf) == t.amount;
    assert Sum([t], MagnitudeOf) == Abs(t.amount);
    if t.kind == Income {
      assert Filter([t], IsIncome) == [t];
      assert Filter([t], IsExpense) == [];
    } else {
      assert Filter([t], IsIncome) == [];
      assert Filter([t], IsExpense) == [t];
    }
  }

  /** The transaction aggregates are additive over a split of the ledger. */
  lemma TotalsAppend(a: seq<Transaction>, b: seq<Transaction>)
    ensures TotalIncome(a + b) == TotalIncome(a) + TotalIncome(b)
    ensures TotalExpenses(a + b) == TotalExpenses(a) + TotalExpenses(b)
    ensures TotalBalance(a + b) == TotalBalance(a) + TotalBalance(b)
  {
    FilterAppend(a, b, IsIncome);
    SumAppend(Filter(a, IsIncome), Filter(b, IsIncome), AmountOf);
    FilterAppend(a, b, IsExpense);
    SumAppend(Filter(a, IsExpense), Filter(b, IsExpense), MagnitudeOf);
  }

  /** The monthly cost is additive over a split of the subscription list. */
  lemma CostAppend(s: seq<Subscription>, u: seq<Subscription>)
    ensures MonthlySubscriptionCost(s + u) == MonthlySubscriptionCost(s) + MonthlySubscriptionCost(u)
  {
    FilterAppend(s, u, IsActive);
    SumAppend(Filter(s, IsActive), Filter(u, IsActive), ChargeOf);
  }

  /** The first entry, when it follows the sign convention, moves the balance by its amount. */
  lemma BalanceStep(txs: seq<Transaction>)
    requires txs != [] && SignConsistent(txs[0])
    ensures TotalBalance(txs) == txs[0].amount + TotalBalance(txs[1..])
  {
    assert txs == [txs[0]] + txs[1..];
    TotalsAppend([txs[0]], txs[1..]);
    SingleTotals(txs[0]);
  }

  /** The sign convention holds for the tail of a ledger that follows it. */
  lemma SignConsistentTail(txs: seq<Transaction>)
    requires txs != [] && AllSignConsistent(txs)
    ensures SignConsistent(txs[0]) && AllSignConsistent(txs[1..])
  {
    forall i | 0 <= i < |txs| - 1 ensures SignConsistent(txs[1..][i]) {
      assert txs[1..][i] == txs[i + 1];
    }
  }

  /** When every entry follows the sign convention, the balance is the plain sum of all amounts. */
  lemma {:induction false} BalanceIsSumOfAmounts(txs: seq<Transaction>)
    requires AllSignConsistent(txs)
    ensures TotalBalance(txs) == Sum(txs, AmountOf)
  {
    if txs != [] {
      SignConsistentTail(txs);
      BalanceIsSumOfAmounts(txs[1..]);
      BalanceStep(txs);
    }
  }

  // ---------------------------------------------------------------- transactions

  /** The result of `parseFloat` on the amount field: a number, or NaN. */
  datatype Parsed = Number(value: real) | NaN

  /** `!amount`: NaN and 0 are the falsy numbers. */
  predicate Falsy(amount: Parsed)
  {
    amount.NaN? || amount.value == 0.0
  }

  /**
   * The transaction list after `handleAddTransaction`: a falsy amount leaves it
   * alone; otherwise a completed record whose sign follows its type goes in
   * front of the previous entries.
   */
  function AddTransaction(txs: seq<Transaction>, id: string, date: string, merchant: string,
                          category: string, kind: TxType, amount: Parsed): (r: seq<Transaction>)
    ensures Falsy(amount) ==> r == txs
    ensures !Falsy(amount) ==> |r| == |txs| + 1 && r[1..] == txs
    ensures !Falsy(amount) ==>
      && r[0].id == id && r[0].date == date && r[0].merchant == merchant
      && r[0].category == category && r[0].kind == kind && r[0].status == Completed
    ensures !Falsy(amount) ==> Abs(r[0].amount) == Abs(amount.value) && StrictlySigned(r[0])
  {
    if Falsy(amount) then txs
    else
      var signed := if kind == Expense then -Abs(amount.value) else Abs(amount.value);
      [Transaction(id, date, merchant, category, signed, kind, Completed)] + txs
  }

  /** The add handler records an entry exactly when the parsed amount is not falsy. */
  lemma AddTransactionRejectsExactlyFalsy(txs: seq<Transaction>, id: string, date: string, merchant: string,
                                          category: string, kind: TxType, amount: Parsed)
    ensures AddTransaction(txs, id, date, merchant, category, kind, amount) == txs <==> Falsy(amount)
  {
    var r := AddTransaction(txs, id, date, merchant, category, kind, amount);
    if !Falsy(amount) {
      assert |r| != |txs|;
    }
  }

  /** Adding a transaction moves exactly one aggregate, by the entry's magnitude, and the balance by its signed amount. */
  lemma AddTransactionTotals(txs: seq<Transaction>, id: string, date: string, merchant: string,
                             category: string, kind: TxType, amount: Parsed)
    requires !Falsy(amount)
    ensures var r := AddTransaction(txs, id, date, merchant, category, kind, amount);
      && TotalIncome(r) == TotalIncome(txs) + (if kind == Income then Abs(amount.value) else 0.0)
      && TotalExpenses(r) == TotalExpenses(txs) + (if kind == Expense then Abs(amount.value) else 0.0)
      && TotalBalance(r) == TotalBalance(txs) + r[0].amount
  {
    var r := AddTransaction(txs, id, date, merchant, category, kind, amount);
    assert r == [r[0]] + txs;
    TotalsAppend([r[0]], txs);
    SingleTotals(r[0]);
  }

  /** The transaction list after deleting `id`: exactly the entries with another id remain. */
  function RemoveTransaction(txs: seq<Transaction>, id: string): (r: seq<Transaction>)
    ensures forall t :: t in r <==> t in txs && t.id != id
    ensures (forall i :: 0 <= i < |txs| ==> txs[i].id != id) ==> r == txs
  {
    Filter(txs, (t: Transaction) => t.id != id)
  }

  /** Deletion keeps the survivors in order: it distributes over concatenation. */
  lemma RemoveTransactionAppend(a: seq<Transaction>, b: seq<Transaction>, id: string)
    ensures RemoveTransaction(a + b, id) == RemoveTransaction(a, id) + RemoveTransaction(b, id)
  {
    FilterAppend(a, b, (t: Transaction) => t.id != id);
  }

  /** Deleting a freshly added transaction by its id restores the previous list. */
  lemma RemoveUndoesAddTransaction(txs: seq<Transaction>, id: string, date: string, merchant: string,
                                   category: string, kind: TxType, amount: Parsed)
    requires forall i :: 0 <= i < |txs| ==> txs[i].id != id
    ensures RemoveTransaction(AddTransaction(txs, id, date, merchant, category, kind, amount), id) == txs
  {
    var r := AddTransaction(txs, id, date, merchant, category, kind, amount);
    if !Falsy(amount) {
      assert r == [r[0]] + txs;
      RemoveTransactionAppend([r[0]], txs, id);
      assert RemoveTransaction([r[0]], id) == [];
    }
  }

  // ---------------------------------------------------------------- subscriptions

  /** The subscription list after `handleAddSubscription`: an active record goes at the end. */
  function AddSubscription(subs: seq<Subscription>, id: string, name: string, amount: real,
                           billingDay: int, category: string): (r: seq<Subscription>)
    ensures |r| == |subs| + 1 && r[..|subs|] == subs
    ensures r[|subs|].active
    ensures r[|subs|].(active := false) == Subscription(id, name, amount, billingDay, category, false)
  {
    subs + [Subscription(id, name, amount, billingDay, category, true)]
  }

  /** A new subscription is active, so it adds its whole amount to the monthly cost. */
  lemma AddSubscriptionCost(subs: seq<Subscription>, id: string, name: string, amount: real,
                            billingDay: int, category: string)
    ensures MonthlySubscriptionCost(AddSubscription(subs, id, name, amount, billingDay, category))
              == MonthlySubscriptionCost(subs) + amount
  {
    var added := Subscription(id, name, amount, billingDay, category, true);
    CostAppend(subs, [added]);
    assert [added][1..] == [];
    assert Filter([added], IsActive) == [added];
    assert Sum([added], ChargeOf) == amount;
  }

  /** Inactive subscriptions contribute nothing to the monthly cost. */
  lemma {:induction false} InactiveCostNothing(subs: seq<Subscription>)
    requires forall i :: 0 <= i < |subs| ==> !subs[i].active
    ensures MonthlySubscriptionCost(subs) == 0.0
  {
    if subs != [] {
      InactiveCostNothing(subs[1..]);
    }
  }

  /** A subscription added with a billing day in range keeps every billing day in range. */
  lemma AddSubscriptionKeepsBillingDays(subs: seq<Subscription>, id: string, name: string, amount: real,
                                        billingDay: int, category: string)
    requires AllBillingDaysValid(subs) && ValidBillingDay(billingDay)
    ensures AllBillingDaysValid(AddSubscription(subs, id, name, amount, billingDay, category))
  {
    var r := AddSubscription(subs, id, name, amount, billingDay, category);
    forall i | 0 <= i < |r| ensures ValidBillingDay(r[i].billingDay) {
      if i < |subs| {
        assert r[i] == r[..|subs|][i];
      }
    }
  }

  /** The subscription list after deleting `id`: exactly the entries with another id remain. */
  function RemoveSubscription(subs: seq<Subscription>, id: string): (r: seq<Subscription>)
    ensures forall s :: s in r <==> s in subs && s.id != id
    ensures (forall i :: 0 <= i < |subs| ==> subs[i].id != id) ==> r == subs
  {
    Filter(subs, (s: Subscription) => s.id != id)
  }

  /** Deleting subscriptions keeps every remaining billing day in range. */
  lemma RemoveSubscriptionKeepsBillingDays(subs: seq<Subscription>, id: string)
    requires AllBillingDaysValid(subs)
    ensures AllBillingDaysValid(RemoveSubscription(subs, id))
  {
    var r := RemoveSubscription(subs, id);
    assert forall i :: 0 <= i < |r| ==> r[i] in subs;
  }

  /** Deletion keeps the surviving subscriptions in order. */
  lemma RemoveSubscriptionAppend(a: seq<Subscription>, b: seq<Subscription>, id: string)
    ensures RemoveSubscription(a + b, id) == RemoveSubscription(a, id) + RemoveSubscription(b, id)
  {
    FilterAppend(a, b, (s: Subscription) => s.id != id);
  }

  /** Deleting a freshly added subscription by its id restores the previous list. */
  lemma RemoveUndoesAddSubscription(subs: seq<Subscription>, id: string, name: string, amount: real,
                                    billingDay: int, category: string)
    requires forall i :: 0 <= i < |subs| ==> subs[i].id != id
    ensures RemoveSubscription(AddSubscription(subs, id, name, amount, billingDay, category), id) == subs
  {
    var added := Subscription(id, name, amount, billingDay, category, true);
    RemoveSubscriptionAppend(subs, [added], id);
    assert RemoveSubscription([added], id) == [];
    assert subs + [] == subs;
  }

  // ---------------------------------------------------------------- currency migration

  /** `transactions.map(t => ({...t, amount: convertValue(t.amount, from, to)}))`. */
  function MigrateTransactions(txs: seq<Transaction>, from: string, to: string,
                               rates: Currency.RateTable): (r: seq<Transaction>)
    ensures |r| == |txs|
    ensures forall i :: 0 <= i < |txs| ==> r[i].(amount := txs[i].amount) == txs[i]
    ensures forall i :: 0 <= i < |txs| ==> r[i].amount == Currency.Convert(txs[i].amount, from, to, rates)
  {
    if txs == [] then []
    else [txs[0].(amount := Currency.Convert(txs[0].amount, from, to, rates))]
         + MigrateTransactions(txs[1..], from, to, rates)
  }

  /** `subscriptions.map(s => ({...s, amount: convertValue(s.amount, from, to)}))`. */
  function MigrateSubscriptions(subs: seq<Subscription>, from: string, to: string,
                                rates: Currency.RateTable): (r: seq<Subscription>)
    ensures |r| == |subs|
    ensures forall i :: 0 <= i < |subs| ==> r[i].(amount := subs[i].amount) == subs[i]
    ensures forall i :: 0 <= i < |subs| ==> r[i].amount == Currency.Convert(subs[i].amount, from, to, rates)
  {
    if subs == [] then []
    else [subs[0].(amount := Currency.Convert(subs[0].amount, from, to, rates))]
         + MigrateSubscriptions(subs[1..], from, to, rates)
  }

  /** A currency switch leaves every billing day as it was, so none leaves the range. */
  lemma MigrateKeepsBillingDays(subs: seq<Subscription>, from: string, to: string, rates: Currency.RateTable)
    requires AllBillingDaysValid(subs)
    ensures AllBillingDaysValid(MigrateSubscriptions(subs, from, to, rates))
  {
    var r := MigrateSubscriptions(subs, from, to, rates);
    forall i | 0 <= i < |r| ensures ValidBillingDay(r[i].billingDay) {
      assert r[i].(amount := subs[i].amount) == subs[i];
    }
  }

  /** Migrating into the code the ledger is already in changes nothing. */
  lemma MigrateSameCode(txs: seq<Transaction>, subs: seq<Subscription>, code: string, rates: Currency.RateTable)
    ensures MigrateTransactions(txs, code, code, rates) == txs
    ensures MigrateSubscriptions(subs, code, code, rates) == subs
  {
    var r := MigrateTransactions(txs, code, code, rates);
    assert forall i :: 0 <= i < |txs| ==> r[i] == txs[i];
    var q := MigrateSubscriptions(subs, code, code, rates);
    assert forall i :: 0 <= i < |subs| ==> q[i] == subs[i];
  }

  /** With positive resolved rates, migration keeps every entry on the right side of 0. */
  lemma MigratePreservesSigns(txs: seq<Transaction>, from: string, to: string, rates: Currency.RateTable)
    requires Currency.Rate(rates, from) > 0.0 && Currency.Rate(rates, to) > 0.0
    requires AllSignConsistent(txs)
    ensures AllSignConsistent(MigrateTransactions(txs, from, to, rates))
  {
    var r := MigrateTransactions(txs, from, to, rates);
    forall i | 0 <= i < |r| ensures SignConsistent(r[i]) {
      assert SignConsistent(txs[i]);
      Currency.ConvertSign(txs[i].amount, from, to, rates);
    }
  }

  /** Every migrated entry comes back, after migrating back, within the rounding slack of both legs. */
  lemma MigrateRoundTrip(txs: seq<Transaction>, c1: string, c2: string, rates: Currency.RateTable, i: int)
    requires Currency.Rate(rates, c1) > 0.0 && Currency.Rate(rates, c2) > 0.0
    requires 0 <= i < |txs|
    ensures var back := MigrateTransactions(MigrateTransactions(txs, c1, c2, rates), c2, c1, rates);
            var slack := (1.0 + Currency.Rate(rates, c1) / Currency.Rate(rates, c2)) * 0.005;
            && back[i].(amount := txs[i].amount) == txs[i]
            && txs[i].amount - slack <= back[i].amount <= txs[i].amount + slack
  {
    Currency.ConvertRoundTrip(txs[i].amount, c1, c2, rates);
  }

  /** Migration and deletion commute: deleting after a currency change deletes the same records. */
  lemma {:induction false} MigrateCommutesWithRemove(txs: seq<Transaction>, id: string, from: string, to: string,
                                                     rates: Currency.RateTable)
    ensures RemoveTransaction(MigrateTransactions(txs, from, to, rates), id)
              == MigrateTransactions(RemoveTransaction(txs, id), from, to, rates)
  {
    if txs != [] {
      var head := txs[0].(amount := Currency.Convert(txs[0].amount, from, to, rates));
      var m := MigrateTransactions(txs, from, to, rates);
      assert m == [head] + MigrateTransactions(txs[1..], from, to, rates);
      assert txs == [txs[0]] + txs[1..];
      RemoveTransactionAppend([head], MigrateTransactions(txs[1..], from, to, rates), id);
      RemoveTransactionAppend([txs[0]], txs[1..], id);
      MigrateCommutesWithRemove(txs[1..], id, from, to, rates);
      MigrateAppend(RemoveTransaction([txs[0]], id), RemoveTransaction(txs[1..], id), from, to, rates);
      if txs[0].id == id {
        assert RemoveTransaction([head], id) == [];
        assert RemoveTransaction([txs[0]], id) == [];
      } else {
        assert RemoveTransaction([head], id) == [head];
        assert RemoveTransaction([txs[0]], id) == [txs[0]];
      }
    }
  }

  /** Migration distributes over concatenation. */
  lemma MigrateAppend(a: seq<Transaction>, b: seq<Transaction>, from: string, to: string, rates: Currency.RateTable)
    ensures MigrateTransactions(a + b, from, to, rates)
              == MigrateTransactions(a, from, to, rates) + MigrateTransactions(b, from, to, rates)
  {
    var l := MigrateTransactions(a + b, from, to, rates);
    var r := MigrateTransactions(a, from, to, rates) + MigrateTransactions(b, from, to, rates);
    assert |l| == |r|;
    forall i | 0 <= i < |l| ensures l[i] == r[i] {
      if i < |a| {
        assert (a + b)[i] == a[i];
      } else {
        assert (a + b)[i] == b[i - |a|];
      }
    }
  }

  /** Migration never changes which subscriptions count toward the monthly cost. */
  lemma {:induction false} MigrateKeepsActiveSet(subs: seq<Subscription>, from: string, to: string,
                                                 rates: Currency.RateTable)
    ensures Filter(MigrateSubscriptions(subs, from, to, rates), IsActive)
              == MigrateSubscriptions(Filter(subs, IsActive), from, to, rates)
  {
    if subs != [] {
      var m := MigrateSubscriptions(subs, from, to, rates);
      assert m[1..] == MigrateSubscriptions(subs[1..], from, to, rates);
      MigrateKeepsActiveSet(subs[1..], from, to, rates);
      var head := subs[0].(amount := Currency.Convert(subs[0].amount, from, to, rates));
      if subs[0].active {
        var f := Filter(subs, IsActive);
        assert f == [subs[0]] + Filter(subs[1..], IsActive);
        var mf := MigrateSubscriptions(f, from, to, rates);
        assert mf[0] == head;
        assert mf[1..] == MigrateSubscriptions(f[1..], from, to, rates);
        assert f[1..] == Filter(subs[1..], IsActive);
      }
    }
  }
}
