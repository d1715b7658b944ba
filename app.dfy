/**
 * The `App` component of App.tsx as an object: its state hooks are fields,
 * its handlers and effects are methods that replace those fields, and the
 * browser `localStorage` is the `store` field. The effect that saves runs
 * after every state change; here a caller invokes `Persist` after each
 * handler, as React does after each render.
 */
module CoinKeep {
  import opened Wrappers
  import opened Types
  import opened Currency
  import opened Ledger
  import opened Persistence
  import Onboarding

  class App {
    var isLoading: bool
    var showOnboarding: bool
    var transactions: seq<Transaction>
    var subscriptions: seq<Subscription>
    var rates: RateTable
    var userName: string
    var userAvatar: Option<string>
    var currencyCode: string
    var store: Store

    /** The persisted part of the state. */
    function CurrentSnapshot(): Snapshot
      reads this
    {
      Snapshot(userName, currencyCode, transactions, subscriptions, userAvatar)
    }

    /**
     * Ledger entries follow the sign convention, every billing day is in its
     * documented range and every rate in the table is usable.
     */
    ghost predicate Consistent()
      reads this
    {
      RatesPositive(rates) && AllSignConsistent(transactions) && AllBillingDaysValid(subscriptions)
    }

    /** The first render: loading, no data, default rates and `RUB`. */
    constructor (storage: Store)
      ensures isLoading && !showOnboarding
      ensures transactions == [] && subscriptions == [] && rates == DefaultRates
      ensures userName == "" && userAvatar == None && currencyCode == "RUB"
      ensures store == storage
      ensures Consistent()
    {
      isLoading, showOnboarding := true, false;
      transactions, subscriptions, rates := [], [], DefaultRates;
      userName, userAvatar, currencyCode := "", None, "RUB";
      store := storage;
      DefaultRatesPositive();
    }

    /** The startup effect: hydrate from the store, or go to onboarding when no user is stored. */
    method Initialize()
      modifies this
      ensures CurrentSnapshot() == Hydrate(old(CurrentSnapshot()), Load(store))
      ensures showOnboarding == (old(showOnboarding) || Load(store).Onboard?)
      ensures !isLoading
      ensures rates == old(rates) && store == old(store)
      ensures && old(Consistent())
              && (TransactionsAt(store).Some? ==> AllSignConsistent(TransactionsAt(store).value))
              && (SubscriptionsAt(store).Some? ==> AllBillingDaysValid(SubscriptionsAt(store).value))
              ==> Consistent()
    {
      var boot := Load(store);
      if boot.Onboard? {
        showOnboarding := true;
        isLoading := false;
        return;
      }
      userName := boot.userName;
      if boot.transactions.Some? { transactions := boot.transactions.value; }
      if boot.subscriptions.Some? { subscriptions := boot.subscriptions.value; }
      if boot.avatar.Some? { userAvatar := boot.avatar; }
      if boot.currency.Some? { currencyCode := boot.currency.value; }
      isLoading := false;
    }

    /** The rate refresh's completion: a fetched table is spread over the current one. */
    method RefreshRates(fetched: Option<RateTable>)
      modifies this
      ensures rates == MergeRates(old(rates), fetched)
      ensures CurrentSnapshot() == old(CurrentSnapshot()) && store == old(store)
      ensures isLoading == old(isLoading) && showOnboarding == old(showOnboarding)
      ensures old(Consistent()) && (fetched.Some? ==> RatesPositive(fetched.value)) ==> Consistent()
    {
      if old(Consistent()) && (fetched.Some? ==> RatesPositive(fetched.value)) {
        MergedRatesPositive(rates, fetched);
      }
      rates := MergeRates(rates, fetched);
    }

    /** The save effect: it writes only once loading is over and onboarding is not showing. */
    method Persist()
      modifies this
      ensures store == if !isLoading && !showOnboarding then Save(old(store), CurrentSnapshot()) else old(store)
      ensures CurrentSnapshot() == old(CurrentSnapshot()) && rates == old(rates)
      ensures isLoading == old(isLoading) && showOnboarding == old(showOnboarding)
    {
      if !isLoading && !showOnboarding {
        store := Save(store, CurrentSnapshot());
      }
    }

    /** `handleChangeCurrency`: rewrite every amount into the new code, then switch to it. */
    method ChangeCurrency(newCode: string)
      modifies this
      ensures newCode == old(currencyCode) ==> CurrentSnapshot() == old(CurrentSnapshot())
      ensures newCode != old(currencyCode) ==>
        && transactions == MigrateTransactions(old(transactions), old(currencyCode), newCode, rates)
        && subscriptions == MigrateSubscriptions(old(subscriptions), old(currencyCode), newCode, rates)
        && currencyCode == newCode
      ensures userName == old(userName) && userAvatar == old(userAvatar)
      ensures rates == old(rates) && store == old(store)
      ensures isLoading == old(isLoading) && showOnboarding == old(showOnboarding)
      ensures old(Consistent()) ==> Consistent()
    {
      if newCode == currencyCode {
        return;
      }
      if Consistent() {
        MigratePreservesSigns(transactions, currencyCode, newCode, rates);
        MigrateKeepsBillingDays(subscriptions, currencyCode, newCode, rates);
      }
      transactions := MigrateTransactions(transactions, currencyCode, newCode, rates);
      subscriptions := MigrateSubscriptions(subscriptions, currencyCode, newCode, rates);
      currencyCode := newCode;
    }

    /** `handleAddTransaction`, with the timestamp id and the form fields as parameters. */
    method AddTransaction(id: string, date: string, merchant: string, category: string,
                          kind: TxType, amount: Parsed)
      modifies this
      ensures transactions == Ledger.AddTransaction(old(transactions), id, date, merchant, category, kind, amount)
      ensures subscriptions == old(subscriptions) && userName == old(userName) && userAvatar == old(userAvatar)
      ensures currencyCode == old(currencyCode) && rates == old(rates) && store == old(store)
      ensures isLoading == old(isLoading) && showOnboarding == old(showOnboarding)
      ensures old(Consistent()) ==> Consistent()
    {
      var updated := Ledger.AddTransaction(transactions, id, date, merchant, category, kind, amount);
      if !Falsy(amount) {
        assert forall i :: 1 <= i < |updated| ==> updated[i] == transactions[i - 1];
      }
      transactions := updated;
    }

    /**
     * `handleAddSubscription`. The form's `min="1" max="31"` keeps the
     * billing day in range before the handler runs; the handler itself checks nothing.
     */
    method AddSubscription(id: string, name: string, amount: real, billingDay: int, category: string)
      requires ValidBillingDay(billingDay)
      modifies this
      ensures subscriptions == Ledger.AddSubscription(old(subscriptions), id, name, amount, billingDay, category)
      ensures transactions == old(transactions) && userName == old(userName) && userAvatar == old(userAvatar)
      ensures currencyCode == old(currencyCode) && rates == old(rates) && store == old(store)
      ensures isLoading == old(isLoading) && showOnboarding == old(showOnboarding)
      ensures old(Consistent()) ==> Consistent()
    {
      if Consistent() {
        AddSubscriptionKeepsBillingDays(subscriptions, id, name, amount, billingDay, category);
      }
      subscriptions := Ledger.AddSubscription(subscriptions, id, name, amount, billingDay, category);
    }

    /** The transaction list's delete callback. */
    method DeleteTransaction(id: string)
      modifies this
      ensures transactions == RemoveTransaction(old(transactions), id)
      ensures subscriptions == old(subscriptions) && userName == old(userName) && userAvatar == old(userAvatar)
      ensures currencyCode == old(currencyCode) && rates == old(rates) && store == old(store)
      ensures isLoading == old(isLoading) && showOnboarding == old(showOnboarding)
      ensures old(Consistent()) ==> Consistent()
    {
      var kept := RemoveTransaction(transactions, id);
      assert forall i :: 0 <= i < |kept| ==> kept[i] in transactions;
      transactions := kept;
    }

    /** The subscription card's delete button. */
    method DeleteSubscription(id: string)
      modifies this
      ensures subscriptions == RemoveSubscription(old(subscriptions), id)
      ensures transactions == old(transactions) && userName == old(userName) && userAvatar == old(userAvatar)
      ensures currencyCode == old(currencyCode) && rates == old(rates) && store == old(store)
      ensures isLoading == old(isLoading) && showOnboarding == old(showOnboarding)
      ensures old(Consistent()) ==> Consistent()
    {
      if Consistent() {
        RemoveSubscriptionKeepsBillingDays(subscriptions, id);
      }
      subscriptions := RemoveSubscription(subscriptions, id);
    }

    /** `handleOnboardingComplete`: adopt the profile and leave onboarding, which opens the save gate. */
    method CompleteOnboarding(name: string, code: string)
      modifies this
      ensures userName == name && currencyCode == code && !showOnboarding
      ensures transactions == old(transactions) && subscriptions == old(subscriptions)
      ensures userAvatar == old(userAvatar) && rates == old(rates) && store == old(store)
      ensures isLoading == old(isLoading)
      ensures old(Consistent()) ==> Consistent()
    {
      userName, currencyCode := name, code;
      showOnboarding := false;
    }

    /** `handleUpdateProfile`: the profile form replaces the user name. */
    method UpdateProfile(name: string)
      modifies this
      ensures userName == name
      ensures CurrentSnapshot() == old(CurrentSnapshot()).(userName := name)
      ensures rates == old(rates) && store == old(store)
      ensures isLoading == old(isLoading) && showOnboarding == old(showOnboarding)
    {
      userName := name;
    }

    /**
     * `handleClearData`: when the user confirms, the five keys are removed and
     * the page reloads, which brings the state back to the first render.
     */
    method ClearData(confirmed: bool)
      modifies this
      ensures !confirmed ==> CurrentSnapshot() == old(CurrentSnapshot()) && store == old(store) && rates == old(rates)
      ensures !confirmed ==> isLoading == old(isLoading) && showOnboarding == old(showOnboarding)
      ensures confirmed ==> store == Reset(old(store))
      ensures confirmed ==> isLoading && !showOnboarding && rates == DefaultRates
      ensures confirmed ==> CurrentSnapshot() == Snapshot("", "RUB", [], [], None)
    {
      if confirmed {
        store := Reset(store);
        isLoading, showOnboarding := true, false;
        transactions, subscriptions, rates := [], [], DefaultRates;
        userName, userAvatar, currencyCode := "", None, "RUB";
      }
    }
  }

  /** The onboarding screen on a first launch: a blank name is refused, then `Ivan` with `USD` goes through. */
  method OnboardIvan() returns (name: string, code: string)
    ensures name == "Ivan" && code == "USD"
  {
    var screen := new Onboarding.OnboardingScreen();
    screen.SetName("  ");
    Onboarding.TrimEmptyIffBlank("  ");
    screen.Next();
    assert screen.step == 1;
    screen.SetName("Ivan");
    Onboarding.TrimEmptyIffBlank("Ivan");
    assert !Onboarding.IsWhitespace("Ivan"[0]);
    screen.Next();
    assert screen.step == 2;
    screen.SelectCurrency("USD");
    name, code := screen.Finish();
  }

  /** A first launch on an empty store: onboarding, then the profile is saved and the next launch resumes it. */
  method FirstLaunch()
  {
    var app := new App(map[]);
    app.Initialize();
    assert app.showOnboarding;
    app.Persist();
    assert app.store == map[];

    var name, code := OnboardIvan();
    app.CompleteOnboarding(name, code);
    app.Persist();
    SaveThenLoad(map[], app.CurrentSnapshot());

    var again := new App(app.store);
    again.Initialize();
    assert !again.showOnboarding;
    assert again.userName == "Ivan" && again.currencyCode == "USD";
  }

  /** The worked migration: a 1000 RUB expense becomes -10.36 once the base currency is USD. */
  method SwitchRubToUsd()
  {
    var app := new App(map[]);
    var fetched := map["USD" := 1.0, "RUB" := 96.5];
    app.RefreshRates(Some(fetched));
    assert app.rates == DefaultRates;
    app.AddTransaction("1", "2024-01-01", "Shop", "Food", Expense, Number(-1000.0));
    assert app.transactions[0].amount == -1000.0;
    app.ChangeCurrency("USD");
    ConvertRubExpenseToUsd();
    assert Rate(app.rates, "RUB") == Rate(fetched, "RUB") && Rate(app.rates, "USD") == Rate(fetched, "USD");
    assert app.transactions[0].amount == -10.36;
    assert app.currencyCode == "USD";
  }
}
