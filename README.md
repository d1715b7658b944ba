# CoinKeep ledger and currency engine, in Dafny

CoinKeep is a mobile-style personal finance tracker. Its logic lives in `App.tsx`: a rate table seeded with five static
USD-pivoted rates and refreshed once from a rate provider, a conversion function that routes every amount through USD
and rounds it to cents, a ledger of transactions and subscriptions with four derived totals, a currency switch that
rewrites every stored amount, a two-step onboarding screen, and a load/save lifecycle over `localStorage`.
The record shapes are in `types.ts`.

This project models that core and proves its properties:

- `types.dfy` (`Types`): the records and enumerations of `types.ts`. The `type` field is called `kind`, because
  `type` is a Dafny keyword. Each enumeration comes with the string literal it is stored as and a reader that
  recognises exactly those literals.
- `currency.dfy` (`Currency`): the defaults, the rate fallback chain, the merge of a fetched table, half-up rounding
  to cents, and `convertValue`. It also holds the properties of conversion: identity, sign, monotonicity, the
  round-trip error bound, and worked values.
- `seqs.dfy` (`Seqs`): `filter`, and a `reduce` that adds one number per element.
- `ledger.dfy` (`Ledger`): the aggregates, the new collections after add and delete, and the per-record rewrite done
  by a currency switch, as functions with their lemmas.
- `persistence.dfy` (`Persistence`): an abstract store keyed by the five `coinkeep_*` keys, with the startup reads,
  the save effect's writes and the reset. It proves that a save followed by a load returns what was saved, that
  startup is idempotent, and that a reset leads to onboarding.
- `onboarding.dfy` (`Onboarding`): `String.prototype.trim`, and the onboarding screen as a class with step, name and
  currency.
- `app.dfy` (`CoinKeep`): the `App` component as a class. Its fields are the state hooks plus the store. Each
  handler and effect is a method that states the whole new state in terms of the functions above. `Consistent()`
  says three things: every transaction follows the sign rule, every billing day is in 1-31, and every rate is
  positive. The add, delete, currency-switch and onboarding-completion handlers keep it. `RefreshRates` keeps it
  when the fetched rates are positive. `Initialize` keeps it when the stored entries follow both rules; a store can
  hold entries that break them. Two client methods,
  `FirstLaunch` and `SwitchRubToUsd`, replay a first launch and the RUB to USD switch on the model.

Modelling choices:

- Amounts and rates are exact `real`s.
- `Math.round(x * 100) / 100` is `Floor(100x + 1/2) / 100`, rounding half-up with ties toward +infinity.
- `parseFloat`'s result is `Parsed = Number(v) | NaN`, and the falsy amounts are NaN and 0.
- A fetch result is `Option<RateTable>`. `None` means a failed fetch or a response with no `rates` field.
- `localStorage` is a `map<string, Stored>`. Each value is held in its decoded form, so `JSON.stringify` followed by
  `JSON.parse` is the identity. A value of the wrong form reads as absent.
- The timestamp id and `window.confirm` become method parameters.

Behaviour of the code worth knowing:

- A currency switch has no all-or-nothing abort and no finiteness check. Every record is always rewritten.
- Subscriptions get no billing-day validation in the handler. Only the form's `min`/`max` limits it, which the model
  states as a precondition.
- The name is stored untrimmed. Only the step-1 button checks `trim()`.
- The round trip is **not** within 0.01 of the amount. With the default rates, 1 KZT goes to 0.00 USD and comes back
  as 0 KZT (`Currency.RoundTripLosesSmallAmounts`). The bound that does hold is `Currency.ConvertRoundTrip`.
- The strict sign rule (income > 0, expense < 0) holds for newly added records but is not kept by a switch: 0.01 RUB
  becomes 0.00 USD (`Currency.ConversionCanReachZero`). What a switch keeps is the non-strict rule
  (`Ledger.MigratePreservesSigns`).
- The `active` flag has no toggle in the code. Subscriptions are created active, and the flag alone decides whether
  one counts toward the monthly cost.

## Model

| member | source | states |
|---|---|---|
| `Types.Transaction` | types.ts:1-9 | a ledger entry: id, date, merchant, category, signed amount, type and status |
| `Types.Subscription` | types.ts:11-18 | a recurring charge: id, name, amount, billing day, category and active flag |
| `Types.ValidBillingDay` | types.ts:15 | the documented billing-day range 1-31; `App.AddSubscription` requires it and `App.Consistent()` keeps it for every subscription |
| `Types.MonthlyData` | types.ts:20-24 | one chart point: a label with income and expenses |
| `Types.AIInsight` | types.ts:26-30 | an advisory item: title, description and severity |
| `Types.ParseTxType` | types.ts:7 | only `income` and `expense` are read as a transaction type, each as the type it spells |
| `Types.TxTypeLiteralParses` | types.ts:7 | each transaction type reads back from its literal as itself |
| `Types.ParseTxStatus` | types.ts:8 | only `completed` and `pending` are read as a status, each as the status it spells |
| `Types.TxStatusLiteralParses` | types.ts:8 | each status reads back from its literal as itself |
| `Types.ParseInsightType` | types.ts:29 | only `warning`, `success` and `info` are read as a severity, each as the severity it spells |
| `Types.InsightTypeLiteralParses` | types.ts:29 | each severity reads back from its literal as itself |
| `Types.ParseChartView` | types.ts:32-36 | only `Weekly`, `Monthly` and `Yearly` are read as a chart view, each as the view it names |
| `Types.ChartViewValueParses` | types.ts:32-36 | each chart view reads back from its value as itself |
| `Currency.Rate` | App.tsx:297-298 | the resolved rate is never 0; it comes from the table, the defaults or is 1; a table of positive rates resolves to a positive rate |
| `Currency.MergeRates` | App.tsx:268-275 | a fetched table overrides the previous one key by key, unfetched keys keep their rate, and a failed fetch leaves the table unchanged |
| `Currency.RateAfterRefresh` | App.tsx:297-298 | after a refresh: a truthy fetched rate wins, an absent or zero one falls back to the default, and an unknown code resolves to 1 |
| `Currency.RateWithoutRefresh` | App.tsx:40-46 | without a refresh, the five defaults resolve as listed and every other code resolves to 1 |
| `Currency.MergedRatesPositive` | App.tsx:269-272 | merging positive fetched rates over a positive table keeps every rate positive |
| `Currency.DefaultRatesPositive` | App.tsx:40-46 | the five default rates are positive |
| `Currency.RoundCents` | App.tsx:305 | the result is a whole number of cents lying in the half-open half-cent window around the input |
| `Currency.RoundCentsUnique` | App.tsx:305 | that window determines the rounded value uniquely |
| `Currency.RoundCentsIdempotent` | App.tsx:305 | rounding a cent value changes nothing |
| `Currency.RoundCentsSign` | App.tsx:305 | rounding maps non-negatives to non-negatives and non-positives to non-positives |
| `Currency.RoundCentsMonotone` | App.tsx:305 | rounding is monotone |
| `Currency.Convert` | App.tsx:295-306 | equal codes return the amount unrounded; otherwise the result is a cent value within half a cent of amount / rateFrom * rateTo |
| `Currency.ConvertIdentity` | App.tsx:296 | converting a code into itself is the identity for every amount and table |
| `Currency.ConvertSign` | App.tsx:301-305 | with positive resolved rates, amount >= 0 gives a result >= 0 and amount <= 0 gives a result <= 0 |
| `Currency.ConvertMonotone` | App.tsx:301-305 | with positive resolved rates, conversion preserves the order of amounts |
| `Currency.ConvertRoundTrip` | App.tsx:295-306 | there and back, the amount moves by at most (1 + rate1/rate2) * 0.005 |
| `Currency.RoundTripLosesSmallAmounts` | App.tsx:295-306 | with the defaults, 1 KZT converts to 0 USD and back to 0 KZT |
| `Currency.ConversionCanReachZero` | App.tsx:301-305 | with the defaults, 0.01 RUB converts to exactly 0 USD |
| `Currency.ConvertRubExpenseToUsd` | App.tsx:295-306 | under {USD: 1, RUB: 96.5}, -1000 RUB converts to -10.36 USD |
| `Seqs.Filter` | App.tsx:359-362 | every kept element is from the input and passes the test, every passing input element is kept, and an all-passing input comes back unchanged; with `FilterAppend`, order is kept |
| `Seqs.Sum` | App.tsx:359-362 | a one-term sum is that term's value and an all-zero sum is 0; with `SumAppend` this fixes the fold as the sum of the terms |
| `Seqs.SumAppend` | App.tsx:359-362 | the sum over a concatenation is the sum of the two sums |
| `Seqs.SumNonNegative` | App.tsx:360 | a sum of non-negative terms is non-negative |
| `Ledger.TotalIncome` | App.tsx:359 | never negative while no income entry is; its value is fixed by `SingleTotals` and `TotalsAppend` |
| `Ledger.TotalExpenses` | App.tsx:360 | total expenses is never negative |
| `Ledger.TotalBalance` | App.tsx:361 | the balance never exceeds the income; its value is fixed by `TotalsAppend` and, under the sign rule, by `BalanceIsSumOfAmounts` |
| `Ledger.MonthlySubscriptionCost` | App.tsx:362 | never negative while no active subscription is; its value is fixed by `CostAppend`, `AddSubscriptionCost` and `InactiveCostNothing` |
| `Ledger.SingleTotals` | App.tsx:359-360 | a one-entry ledger counts its amount as income or its magnitude as expense, according to its type |
| `Ledger.TotalsAppend` | App.tsx:359-361 | income, expenses and balance are additive over a split of the ledger |
| `Ledger.CostAppend` | App.tsx:362 | the monthly subscription cost is additive over a split of the list |
| `Ledger.BalanceIsSumOfAmounts` | App.tsx:359-361 | when every entry follows the sign rule, the balance (income minus expenses) equals the sum of all amounts |
| `Ledger.InactiveCostNothing` | App.tsx:362 | inactive subscriptions contribute nothing to the monthly cost |
| `Ledger.AddTransaction` | App.tsx:371-383 | a falsy amount leaves the list unchanged; otherwise one completed record with the given fields, magnitude and strict type sign is put in front of the unchanged old list |
| `Ledger.Falsy` | App.tsx:368-371 | NaN and 0 are the falsy parse results; the add handler rejects exactly those (`AddTransactionRejectsExactlyFalsy`) |
| `Ledger.AddTransactionRejectsExactlyFalsy` | App.tsx:371 | the add handler leaves the list unchanged if and only if the parsed amount is falsy |
| `Ledger.AddTransactionTotals` | App.tsx:371-383 | an added record raises income or expenses by its magnitude, and the balance by its signed amount |
| `Ledger.RemoveTransaction` | App.tsx:499 | exactly the entries with a different id remain; deleting an absent id leaves the list equal |
| `Ledger.RemoveTransactionAppend` | App.tsx:550 | deletion distributes over concatenation, so the survivors keep their order |
| `Ledger.RemoveUndoesAddTransaction` | App.tsx:499 | deleting a freshly added record by its id restores the previous list |
| `Ledger.AddSubscription` | App.tsx:391-399 | the old list is kept as a prefix, followed by one active record with the given fields |
| `Ledger.AddSubscriptionCost` | App.tsx:397-399 | adding a subscription raises the monthly cost by its amount |
| `Ledger.RemoveSubscription` | App.tsx:596 | exactly the subscriptions with a different id remain; an absent id leaves the list equal |
| `Ledger.AddSubscriptionKeepsBillingDays` | App.tsx:391-397 | appending a subscription whose billing day is in 1-31 keeps every billing day in range |
| `Ledger.RemoveSubscriptionKeepsBillingDays` | App.tsx:596 | deleting subscriptions keeps every remaining billing day in range |
| `Ledger.RemoveSubscriptionAppend` | App.tsx:596 | subscription deletion keeps the survivors in order |
| `Ledger.RemoveUndoesAddSubscription` | App.tsx:596 | deleting a freshly added subscription by its id restores the previous list |
| `Ledger.MigrateTransactions` | App.tsx:312-315 | same length and order; each record differs from the original only in amount, which is the converted old amount |
| `Ledger.MigrateSubscriptions` | App.tsx:319-322 | same length and order; each subscription differs only in amount, which is the converted old amount |
| `Ledger.MigrateSameCode` | App.tsx:312-322 | migrating into the current code leaves both lists equal |
| `Ledger.MigratePreservesSigns` | App.tsx:312-315 | with positive resolved rates, every entry still follows the non-strict sign rule after a migration |
| `Ledger.MigrateRoundTrip` | App.tsx:312-315 | migrating there and back keeps every field but the amount, and the amount moves by at most the rounding slack |
| `Ledger.MigrateAppend` | App.tsx:312-315 | migration distributes over concatenation |
| `Ledger.MigrateCommutesWithRemove` | App.tsx:312-316 | deleting after a currency switch gives the same list as switching after deleting |
| `Ledger.MigrateKeepsBillingDays` | App.tsx:319-322 | a currency switch keeps every billing day in range |
| `Ledger.MigrateKeepsActiveSet` | App.tsx:319-323 | a switch does not change which subscriptions count toward the monthly cost |
| `Persistence.TextAt` | App.tsx:238-249 | a string key counts as present exactly when it holds a non-empty text |
| `Persistence.TransactionsAt` | App.tsx:246 | the saved transactions are read exactly when a transaction list is stored |
| `Persistence.SubscriptionsAt` | App.tsx:247 | the saved subscriptions are read exactly when a subscription list is stored |
| `Persistence.Load` | App.tsx:237-258 | onboarding exactly when no non-empty user name is stored; otherwise the name plus each field that is present |
| `Persistence.Hydrate` | App.tsx:251-255 | the name is always taken; every other field is replaced only when the store had it |
| `Persistence.Save` | App.tsx:284-292 | writes the two collections, the name and the currency, and the avatar only when it is non-empty; every other key is unchanged |
| `Persistence.Reset` | App.tsx:331-335 | removes the five keys and leaves every other key unchanged |
| `Persistence.ResetLeadsToOnboarding` | App.tsx:329-339 | after a reset the next startup goes to onboarding |
| `Persistence.SaveThenLoad` | App.tsx:284-292 | a load after a save returns the saved name, lists and currency, and the saved (or previously stored) avatar |
| `Persistence.BootIsIdempotent` | App.tsx:237-292 | hydrating, saving and hydrating again produces the same state |
| `Onboarding.TrimStart` | App.tsx:156 | drops exactly the leading run of whitespace |
| `Onboarding.TrimEnd` | App.tsx:156 | drops exactly the trailing run of whitespace |
| `Onboarding.Trim` | App.tsx:156 | the trimmed name is no longer than the name and neither starts nor ends with whitespace; `TrimStart` and `TrimEnd` say exactly which characters go |
| `Onboarding.TrimEmptyIffBlank` | App.tsx:156-157 | the trimmed name is empty if and only if every character is whitespace |
| `Onboarding.OnboardingScreen.constructor` | App.tsx:129-131 | starts at step 1 with an empty name and `RUB` selected |
| `Onboarding.OnboardingScreen.SetName` | App.tsx:146-149 | the name input replaces the name and stays on step 1 |
| `Onboarding.OnboardingScreen.Next` | App.tsx:156 | advances to step 2 exactly when the trimmed name is non-empty, and otherwise stays at step 1 |
| `Onboarding.OnboardingScreen.SelectCurrency` | App.tsx:174 | a currency button replaces the selection on step 2 |
| `Onboarding.OnboardingScreen.Back` | App.tsx:195 | returns to step 1 and keeps the name and the currency |
| `Onboarding.OnboardingScreen.Finish` | App.tsx:188 | hands over the name and currency; the name is never blank |
| `CoinKeep.App.constructor` | App.tsx:210-223 | the first render is loading, not onboarding, with empty lists, default rates, no user, no avatar and `RUB` |
| `CoinKeep.App.Initialize` | App.tsx:237-258 | the state becomes the hydration of the store, onboarding shows exactly when no user is stored, and loading ends; consistency is kept when the stored transactions follow the sign rule and the stored billing days are in range |
| `CoinKeep.App.RefreshRates` | App.tsx:261-281 | the rates become the merge of the fetched table, nothing else changes, and positive fetched rates keep the app consistent |
| `CoinKeep.App.Persist` | App.tsx:284-292 | the store is written with the current snapshot only when loading is over and onboarding is not showing |
| `CoinKeep.App.ChangeCurrency` | App.tsx:308-327 | no-op for the current code; otherwise both lists are migrated from the old code and the code becomes the new one; consistency is kept |
| `CoinKeep.App.AddTransaction` | App.tsx:365-386 | the transactions become the add result; nothing else changes; consistency is kept |
| `CoinKeep.App.AddSubscription` | App.tsx:388-401 | for a billing day in 1-31, the subscriptions become the append result; nothing else changes; consistency is kept |
| `CoinKeep.App.DeleteTransaction` | App.tsx:499 | the transactions lose exactly the records with the id; nothing else changes; consistency is kept |
| `CoinKeep.App.DeleteSubscription` | App.tsx:596 | the subscriptions lose exactly the records with the id; nothing else changes; consistency is kept |
| `CoinKeep.App.CompleteOnboarding` | App.tsx:353-357 | adopts the name and currency and leaves onboarding, which opens the save gate |
| `CoinKeep.App.UpdateProfile` | App.tsx:403-408 | the profile form replaces only the user name |
| `CoinKeep.App.ClearData` | App.tsx:329-339 | if confirmed, the five keys are removed and the state returns to the first render; if not, nothing changes |

## Left out

- Rendering: all JSX and layout (`BottomNav`, `CreditCardComponent`, the modals, `StatCard.tsx`, `TransactionList.tsx`), the tab state and the open/closed flags of the modals. They are presentation only.
- The currency symbol lookup (`currencySymbol`) and the `CURRENCIES` and `CATEGORIES` lists. These are display data.
- `generateChartData`: it only scales the balance by fixed factors to make chart points.
- `services/geminiService.ts` and `components/AIAssistant.tsx`: network calls to an external AI service. Only the `AIInsight` record shape is modelled.
- Real I/O: the `localStorage` API, the `fetch` of the rate endpoint (its result is a parameter of `RefreshRates`), the `ratesLoading` flag, `window.confirm` (a parameter of `ClearData`), `location.reload` (modelled as returning to the first-render state) and `Date.now` ids (parameters).
- `handleAvatarUpload`: the `FileReader` upload is I/O. The avatar field is only ever set by hydration here.
- `JSON.stringify` and `JSON.parse`: stored values are kept in decoded form. Malformed stored text, which makes `JSON.parse` throw in the source, is read as absent.
- IEEE-754 behaviour: exact reals stand in for JavaScript numbers, so there is no drift, no `-0` and no NaN or Infinity propagation. NaN appears only as the falsy amount of the add-transaction form. A NaN subscription amount or billing day from `parseFloat`/`parseInt` is not modelled.
- Object-prototype keys such as `toString` in a rate lookup, which in JavaScript resolve to inherited members.
- React scheduling: effects are methods the caller runs. The save effect is `Persist`, which a caller runs after every state change, as React does after each render.
- Currency.Rate: its own contract states only that the resolved rate is non-zero, drawn from the table, the defaults or 1, and positive for a positive table. The full fallback chain is stated by `Currency.RateAfterRefresh` for the tables the application builds, the defaults with a fetch merged over them.
- CoinKeep.App.AddSubscription: it requires a billing day in 1-31, the range `types.ts` documents for `billingDay`. The handler does not check it. It applies `parseInt` to the raw field text, so text the form's `min`/`max` accepts can still parse outside the range: `0.5e1` is 5 to the browser and 0 to `parseInt`. The model assumes the documented range rather than modelling `parseInt`.
