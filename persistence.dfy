/**
 * The persistence lifecycle of App.tsx over an abstract key-value store
 * standing in for `localStorage`.
 *
 * `localStorage` holds strings; the collections are written with
 * `JSON.stringify` and read back with `JSON.parse`. The model keeps each value
 * in its decoded form (`Stored`), so that serialisation is the identity and a
 * value of the wrong form reads as absent.
 */
module Persistence {
  import opened Wrappers
  import opened Types

  const UsernameKey := "coinkeep_username"
  const TransactionsKey := "coinkeep_transactions"
  const SubscriptionsKey := "coinkeep_subscriptions"
  const AvatarKey := "coinkeep_avatar"
  const CurrencyKey := "coinkeep_currency"

  /** The five keys the application owns. */
  const AppKeys: set<string> := {UsernameKey, TransactionsKey, SubscriptionsKey, AvatarKey, CurrencyKey}

  datatype Stored =
    | Text(text: string)
    | TransactionList(txs: seq<Transaction>)
    | SubscriptionList(subs: seq<Subscription>)

  type Store = map<string, Stored>

  /** The persisted part of the application state. */
  datatype Snapshot = Snapshot(
    userName: string,
    currencyCode: string,
    transactions: seq<Transaction>,
    subscriptions: seq<Subscription>,
    avatar: Option<string>)

  /** What the startup effect found: no user (go to onboarding), or the fields present in the store. */
  datatype Boot =
    | Onboard
    | Resume(userName: string,
             transactions: Option<seq<Transaction>>,
             subscriptions: Option<seq<Subscription>>,
             avatar: Option<string>,
             currency: Option<string>)

  /** `localStorage.getItem(key)` used as a condition: present and not the empty string. */
  function TextAt(store: Store, key: string): (r: Option<string>)
    ensures r.Some? <==> key in store && store[key].Text? && store[key].text != ""
    ensures r.Some? ==> store[key] == Text(r.value)
  {
    if key in store && store[key].Text? && store[key].text != "" then Some(store[key].text) else None
  }

  function TransactionsAt(store: Store): (r: Option<seq<Transaction>>)
    ensures r.Some? <==> TransactionsKey in store && store[TransactionsKey].TransactionList?
    ensures r.Some? ==> store[TransactionsKey] == TransactionList(r.value)
  {
    if TransactionsKey in store && store[TransactionsKey].TransactionList?
    then Some(store[TransactionsKey].txs) else None
  }

  function SubscriptionsAt(store: Store): (r: Option<seq<Subscription>>)
    ensures r.Some? <==> SubscriptionsKey in store && store[SubscriptionsKey].SubscriptionList?
    ensures r.Some? ==> store[SubscriptionsKey] == SubscriptionList(r.value)
  {
    if SubscriptionsKey in store && store[SubscriptionsKey].SubscriptionList?
    then Some(store[SubscriptionsKey].subs) else None
  }

  /**
   * The startup effect's reads: without a (non-empty) user name the app goes
   * to onboarding and reads nothing else; otherwise every other field is
   * taken only if it is present.
   */
  function Load(store: Store): (b: Boot)
    ensures b.Onboard? <==> TextAt(store, UsernameKey).None?
    ensures b.Resume? ==>
      && store[UsernameKey] == Text(b.userName) && b.userName != ""
      && b.transactions == TransactionsAt(store)
      && b.subscriptions == SubscriptionsAt(store)
      && b.avatar == TextAt(store, AvatarKey)
      && b.currency == TextAt(store, CurrencyKey)
  {
    match TextAt(store, UsernameKey)
    case None => Onboard
    case Some(user) =>
      Resume(user, TransactionsAt(store), SubscriptionsAt(store), TextAt(store, AvatarKey), TextAt(store, CurrencyKey))
  }

  /** The state after hydration: each field found in the store replaces the current one. */
  function Hydrate(current: Snapshot, b: Boot): (s: Snapshot)
    ensures b.Onboard? ==> s == current
    ensures b.Resume? ==>
      && s.userName == b.userName
      && s.transactions == (if b.transactions.Some? then b.transactions.value else current.transactions)
      && s.subscriptions == (if b.subscriptions.Some? then b.subscriptions.value else current.subscriptions)
      && s.avatar == (if b.avatar.Some? then b.avatar else current.avatar)
      && s.currencyCode == (if b.currency.Some? then b.currency.value else current.currencyCode)
  {
    match b
    case Onboard => current
    case Resume(user, txs, subs, avatar, currency) =>
      Snapshot(
        user,
        if currency.Some? then currency.value else current.currencyCode,
        if txs.Some? then txs.value else current.transactions,
        if subs.Some? then subs.value else current.subscriptions,
        if avatar.Some? then avatar else current.avatar)
  }

  /** The avatar is written only when it is set and not empty. */
  predicate WritesAvatar(snap: Snapshot)
  {
    snap.avatar.Some? && snap.avatar.value != ""
  }

  /**
   * The save effect's writes: the two collections, the user name and the
   * currency always; the avatar only when it is truthy. No other key changes.
   */
  function Save(store: Store, snap: Snapshot): (r: Store)
    ensures r.Keys == store.Keys + {TransactionsKey, SubscriptionsKey, UsernameKey, CurrencyKey}
                      + (if WritesAvatar(snap) then {AvatarKey} else {})
    ensures forall k :: k in store && k !in AppKeys ==> r[k] == store[k]
    ensures r[TransactionsKey] == TransactionList(snap.transactions)
    ensures r[SubscriptionsKey] == SubscriptionList(snap.subscriptions)
    ensures r[UsernameKey] == Text(snap.userName)
    ensures r[CurrencyKey] == Text(snap.currencyCode)
    ensures WritesAvatar(snap) ==> r[AvatarKey] == Text(snap.avatar.value)
    ensures !WritesAvatar(snap) && AvatarKey in store ==> r[AvatarKey] == store[AvatarKey]
  {
    var written := store[TransactionsKey := TransactionList(snap.transactions)]
                        [SubscriptionsKey := SubscriptionList(snap.subscriptions)]
                        [UsernameKey := Text(snap.userName)]
                        [CurrencyKey := Text(snap.currencyCode)];
    if WritesAvatar(snap) then written[AvatarKey := Text(snap.avatar.value)] else written
  }

  /** `handleClearData`: the five keys are removed and nothing else is touched. */
  function Reset(store: Store): (r: Store)
    ensures forall k :: k in AppKeys ==> k !in r
    ensures forall k :: k in store && k !in AppKeys ==> k in r && r[k] == store[k]
    ensures r.Keys <= store.Keys
  {
    store - AppKeys
  }

  /** After a reset the next startup goes straight to onboarding. */
  lemma ResetLeadsToOnboarding(store: Store)
    ensures Load(Reset(store)).Onboard?
  {
    assert UsernameKey in AppKeys;
  }

  /**
   * What one save leaves for the next startup: the name, both collections and
   * the currency come back as written (an empty currency reads as absent); the
   * avatar comes back as written, or as whatever was stored before when none
   * was written.
   */
  lemma SaveThenLoad(store: Store, snap: Snapshot)
    requires snap.userName != ""
    ensures Load(Save(store, snap)) ==
      Resume(snap.userName,
             Some(snap.transactions),
             Some(snap.subscriptions),
             if WritesAvatar(snap) then snap.avatar else TextAt(store, AvatarKey),
             if snap.currencyCode != "" then Some(snap.currencyCode) else None)
  {
    var r := Save(store, snap);
    assert r[UsernameKey] == Text(snap.userName);
    assert r[TransactionsKey] == TransactionList(snap.transactions);
    assert r[SubscriptionsKey] == SubscriptionList(snap.subscriptions);
    assert r[CurrencyKey] == Text(snap.currencyCode);
    if WritesAvatar(snap) {
      assert r[AvatarKey] == Text(snap.avatar.value);
    } else {
      assert TextAt(r, AvatarKey) == TextAt(store, AvatarKey);
    }
  }

  /**
   * Startup is idempotent: hydrating from the store, saving, and hydrating
   * from the saved store again yields the same state.
   */
  lemma BootIsIdempotent(store: Store, initial: Snapshot)
    requires Load(store).Resume?
    ensures var s := Hydrate(initial, Load(store));
            Hydrate(initial, Load(Save(store, s))) == s
  {
    var b := Load(store);
    var s := Hydrate(initial, b);
    SaveThenLoad(store, s);
    if !WritesAvatar(s) {
      assert TextAt(store, AvatarKey) == b.avatar;
      assert b.avatar.None? ==> s.avatar == initial.avatar;
    }
  }
}
