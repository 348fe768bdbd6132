/**
 * The account endpoints (Controllers/AccountsController.cs): the case-insensitive
 * PATCH body and its `UpdatedAt` stamp, the PUT/POST/DELETE outcomes under the
 * store's constraints, the active-accounts listing and the per-currency summary —
 * and what each write does to the reconciliation of `CurrentBalance` with the ledger.
 */
module Accounts {

  import opened Wrappers
  import opened Text
  import opened Models
  import opened Data
  import opened Ledger
  import Query
  import Grouping

  // ---------------------------------------------------------------------------
  // Queries

  /** `OrderBy(a => a.AccountName)`, names compared ordinally. */
  predicate ByName(a: Account, b: Account) {
    OrdinalLe(a.accountName, b.accountName)
  }

  lemma ByNameIsTotalPreorder()
    ensures Query.TotalPreorder(ByName)
  {
    forall a: Account, b: Account
      ensures ByName(a, b) || ByName(b, a)
    {
      OrdinalLeTotal(a.accountName, b.accountName);
    }
    forall a: Account, b: Account, c: Account | ByName(a, b) && ByName(b, c)
      ensures ByName(a, c)
    {
      OrdinalLeTransitive(a.accountName, b.accountName, c.accountName);
    }
  }

  /** GET api/accounts/active: exactly the active accounts, in ascending name order. */
  function GetActiveAccounts(accounts: seq<Account>): (r: seq<Account>)
    ensures forall a :: multiset(r)[a] == if a.isActive then multiset(accounts)[a] else 0
    ensures forall i, j :: 0 <= i < j < |r| ==> OrdinalLe(r[i].accountName, r[j].accountName)
  {
    ByNameIsTotalPreorder();
    Query.SortBy(Query.Filter(accounts, (a: Account) => a.isActive), ByName)
  }

  function CurrencyOf(a: Account): string { a.currency }
  function BalanceOf(a: Account): Cents { a.currentBalance }
  function ActiveOne(a: Account): int { if a.isActive then 1 else 0 }

  datatype CurrencySummary = CurrencySummary(
    currency: string, totalAccounts: int, totalBalance: Cents, activeAccounts: int)

  datatype AccountsSummary = AccountsSummary(
    totalAccounts: int, totalBalance: Cents, activeAccounts: int, byCurrency: seq<CurrencySummary>)

  /** `Count()`, `Sum(a => a.CurrentBalance)` and `Count(a => a.IsActive)` over the group of `currency`. */
  function CurrencyGroup(accounts: seq<Account>, currency: string): CurrencySummary {
    CurrencySummary(
      currency,
      Grouping.SumWhere(accounts, CurrencyOf, currency, Grouping.One),
      Grouping.SumWhere(accounts, CurrencyOf, currency, BalanceOf),
      Grouping.SumWhere(accounts, CurrencyOf, currency, ActiveOne))
  }

  /** One summary row per currency of `currencies`, in that order. */
  function CurrencyGroups(accounts: seq<Account>, currencies: seq<string>): (r: seq<CurrencySummary>)
    decreases |currencies|
    ensures |r| == |currencies|
    ensures forall i :: 0 <= i < |r| ==> r[i] == CurrencyGroup(accounts, currencies[i])
    ensures forall i :: 0 <= i < |r| ==> r[i].currency == currencies[i]
  {
    if currencies == [] then []
    else CurrencyGroups(accounts, currencies[..|currencies| - 1]) + [CurrencyGroup(accounts, currencies[|currencies| - 1])]
  }

  /** Some account uses `currency`. */
  predicate InUse(accounts: seq<Account>, currency: string) {
    exists a :: a in accounts && a.currency == currency
  }

  /**
   * GET api/accounts/summary: the number of accounts, and one row per currency in use
   * (no currency twice, none missing, none invented), each holding the aggregates of its
   * currency's accounts. The rows come in order of first appearance.
   */
  function GetAccountsSummary(accounts: seq<Account>): (r: AccountsSummary)
    ensures r.totalAccounts == |accounts|
    ensures forall i, j :: 0 <= i < j < |r.byCurrency| ==> r.byCurrency[i].currency != r.byCurrency[j].currency
    ensures forall a :: a in accounts ==> exists i :: 0 <= i < |r.byCurrency| && r.byCurrency[i].currency == a.currency
    ensures forall i :: 0 <= i < |r.byCurrency| ==> InUse(accounts, r.byCurrency[i].currency)
    ensures forall i :: 0 <= i < |r.byCurrency| ==> r.byCurrency[i] == CurrencyGroup(accounts, r.byCurrency[i].currency)
  {
    Grouping.CountIsLength(accounts);
    var currencies := Grouping.Keys(accounts, CurrencyOf);
    var groups := CurrencyGroups(accounts, currencies);
    EveryCurrencyHasARow(accounts, currencies, groups);
    EveryRowHasAnAccount(accounts, currencies, groups);
    AccountsSummary(
      Grouping.Total(accounts, Grouping.One),
      Grouping.Total(accounts, BalanceOf),
      Grouping.Total(accounts, ActiveOne),
      groups)
  }

  lemma EveryCurrencyHasARow(accounts: seq<Account>, currencies: seq<string>, groups: seq<CurrencySummary>)
    requires forall a :: a in accounts ==> CurrencyOf(a) in currencies
    requires |groups| == |currencies| && forall i :: 0 <= i < |groups| ==> groups[i].currency == currencies[i]
    ensures forall a :: a in accounts ==> exists i :: 0 <= i < |groups| && groups[i].currency == a.currency
  {
    forall a | a in accounts
      ensures exists i :: 0 <= i < |groups| && groups[i].currency == a.currency
    {
      var i :| 0 <= i < |currencies| && currencies[i] == CurrencyOf(a);
      assert groups[i].currency == a.currency;
    }
  }

  lemma EveryRowHasAnAccount(accounts: seq<Account>, currencies: seq<string>, groups: seq<CurrencySummary>)
    requires forall c :: c in currencies ==> exists a :: a in accounts && CurrencyOf(a) == c
    requires |groups| == |currencies| && forall i :: 0 <= i < |groups| ==> groups[i].currency == currencies[i]
    ensures forall i :: 0 <= i < |groups| ==> InUse(accounts, groups[i].currency)
  {
    forall i | 0 <= i < |groups|
      ensures InUse(accounts, groups[i].currency)
    {
      assert currencies[i] in currencies;
      var a :| a in accounts && CurrencyOf(a) == currencies[i];
      assert a.currency == groups[i].currency;
    }
  }

  function SumCounts(gs: seq<CurrencySummary>): int {
    if gs == [] then 0 else SumCounts(gs[..|gs| - 1]) + gs[|gs| - 1].totalAccounts
  }

  function SumBalances(gs: seq<CurrencySummary>): Cents {
    if gs == [] then 0 else SumBalances(gs[..|gs| - 1]) + gs[|gs| - 1].totalBalance
  }

  function SumActive(gs: seq<CurrencySummary>): int {
    if gs == [] then 0 else SumActive(gs[..|gs| - 1]) + gs[|gs| - 1].activeAccounts
  }

  lemma {:induction false} GroupColumnsAreKeySums(accounts: seq<Account>, currencies: seq<string>)
    decreases |currencies|
    ensures SumCounts(CurrencyGroups(accounts, currencies)) == Grouping.SumOverKeys(accounts, CurrencyOf, currencies, Grouping.One)
    ensures SumBalances(CurrencyGroups(accounts, currencies))
         == Grouping.SumOverKeys(accounts, CurrencyOf, currencies, BalanceOf)
    ensures SumActive(CurrencyGroups(accounts, currencies))
         == Grouping.SumOverKeys(accounts, CurrencyOf, currencies, ActiveOne)
  {
    if currencies != [] {
      var init := currencies[..|currencies| - 1];
      GroupColumnsAreKeySums(accounts, init);
      var gs := CurrencyGroups(accounts, currencies);
      assert gs[..|gs| - 1] == CurrencyGroups(accounts, init);
    }
  }

  /** The currency groups partition the accounts: their counts and balances add up to the totals. */
  lemma CurrencyGroupsAddUp(accounts: seq<Account>)
    ensures var r := GetAccountsSummary(accounts);
      && SumCounts(r.byCurrency) == r.totalAccounts
      && SumBalances(r.byCurrency) == r.totalBalance
      && SumActive(r.byCurrency) == r.activeAccounts
  {
    var currencies := Grouping.Keys(accounts, CurrencyOf);
    GroupColumnsAreKeySums(accounts, currencies);
    Grouping.GroupsPartition(accounts, CurrencyOf, Grouping.One);
    Grouping.GroupsPartition(accounts, CurrencyOf, BalanceOf);
    Grouping.GroupsPartition(accounts, CurrencyOf, ActiveOne);
  }

  // ---------------------------------------------------------------------------
  // The PATCH body

  /** The fields the `switch (update.Key.ToLower())` recognises. */
  const PatchableFields: set<string> := {"accountname", "currentbalance", "currency", "description", "isactive"}

  /** One iteration of the `foreach`; None when a conversion throws. */
  function PatchStep(d: Draft<Account>, u: Update): Option<Draft<Account>> {
    var a := d.record;
    var field := ToLower(u.key);
    if field == "accountname" then
      match u.value.text
      case None => Some(d.(nulled := d.nulled + {"accountname"}))
      case Some(s) => Some(Draft(a.(accountName := s), d.nulled - {"accountname"}))
    else if field == "currentbalance" then
      match u.value.decimal
      case None => None
      case Some(x) => Some(d.(record := a.(currentBalance := x)))
    else if field == "currency" then
      match u.value.text
      case None => Some(d.(nulled := d.nulled + {"currency"}))
      case Some(s) => Some(Draft(a.(currency := s), d.nulled - {"currency"}))
    else if field == "description" then
      Some(d.(record := a.(description := u.value.text)))
    else if field == "isactive" then
      match u.value.boolean
      case None => None
      case Some(b) => Some(d.(record := a.(isActive := b)))
    else
      Some(d)
  }

  function PatchFrom(d: Draft<Account>, us: seq<Update>): Option<Draft<Account>>
    decreases |us|
  {
    if us == [] then Some(d)
    else match PatchStep(d, us[0])
      case None => None
      case Some(d') => PatchFrom(d', us[1..])
  }

  /** The account after the whole body and the `UpdatedAt` stamp, with the required columns left null. */
  function Patched(a: Account, updates: seq<Update>, now: Timestamp): Option<Draft<Account>> {
    match PatchFrom(Draft(a, {}), updates)
    case None => None
    case Some(d) => Some(d.(record := d.record.(updatedAt := now)))
  }

  /** The `foreach` over the body followed by the stamp. */
  method ApplyPatch(a: Account, updates: seq<Update>, now: Timestamp) returns (r: Option<Draft<Account>>)
    ensures r == Patched(a, updates, now)
  {
    var account := a;
    var nulled: set<string> := {};
    var i := 0;
    while i < |updates|
      invariant 0 <= i <= |updates|
      invariant PatchFrom(Draft(a, {}), updates) == PatchFrom(Draft(account, nulled), updates[i..])
    {
      var update := updates[i];
      assert updates[i..][0] == update && updates[i..][1..] == updates[i + 1..];
      var field := ToLower(update.key);
      if field == "accountname" {
        match update.value.text {
          case None => nulled := nulled + {"accountname"};
          case Some(s) =>
            account := account.(accountName := s);
            nulled := nulled - {"accountname"};
        }
      } else if field == "currentbalance" {
        match update.value.decimal {
          case None => return None;
          case Some(x) => account := account.(currentBalance := x);
        }
      } else if field == "currency" {
        match update.value.text {
          case None => nulled := nulled + {"currency"};
          case Some(s) =>
            account := account.(currency := s);
            nulled := nulled - {"currency"};
        }
      } else if field == "description" {
        account := account.(description := update.value.text);
      } else if field == "isactive" {
        match update.value.boolean {
          case None => return None;
          case Some(b) => account := account.(isActive := b);
        }
      }
      i := i + 1;
    }
    account := account.(updatedAt := now);
    r := Some(Draft(account, nulled));
  }

  /** `r` differs from `d` only in the columns `sel` names, and nulls only the two required text columns. */
  predicate KeepsUnselected(d: Draft<Account>, r: Draft<Account>, sel: set<string>) {
    && r.record.id == d.record.id
    && r.record.accountId == d.record.accountId
    && r.record.initialDeposit == d.record.initialDeposit
    && r.record.createdDate == d.record.createdDate
    && r.record.createdAt == d.record.createdAt
    && r.record.updatedAt == d.record.updatedAt
    && ("accountname" !in sel ==>
          r.record.accountName == d.record.accountName && ("accountname" in r.nulled <==> "accountname" in d.nulled))
    && ("currentbalance" !in sel ==> r.record.currentBalance == d.record.currentBalance)
    && ("currency" !in sel ==> r.record.currency == d.record.currency && ("currency" in r.nulled <==> "currency" in d.nulled))
    && ("description" !in sel ==> r.record.description == d.record.description)
    && ("isactive" !in sel ==> r.record.isActive == d.record.isActive)
    && r.nulled <= d.nulled + {"accountname", "currency"}
  }

  lemma PatchStepChangesOnlyItsField(d: Draft<Account>, u: Update)
    requires PatchStep(d, u).Some?
    ensures KeepsUnselected(d, PatchStep(d, u).value, {ToLower(u.key)})
  {
  }

  lemma {:induction false} PatchFromChangesOnlyNamedFields(d: Draft<Account>, us: seq<Update>)
    requires PatchFrom(d, us).Some?
    decreases |us|
    ensures KeepsUnselected(d, PatchFrom(d, us).value, Selected(us))
  {
    if us != [] {
      var d' := PatchStep(d, us[0]).value;
      PatchStepChangesOnlyItsField(d, us[0]);
      PatchFromChangesOnlyNamedFields(d', us[1..]);
      assert Selected(us) == {ToLower(us[0].key)} + Selected(us[1..]);
    }
  }

  /**
   * The body changes only what it names, and `UpdatedAt` is stamped whatever it holds:
   * `Id`, `AccountId`, `InitialDeposit`, `CreatedDate` and `CreatedAt` never change,
   * and a required column can be left null only by a key that selects it.
   */
  lemma PatchChangesOnlyNamedFields(a: Account, updates: seq<Update>, now: Timestamp)
    requires Patched(a, updates, now).Some?
    ensures var r := Patched(a, updates, now).value;
      && r.record.id == a.id
      && r.record.accountId == a.accountId
      && r.record.initialDeposit == a.initialDeposit
      && r.record.createdDate == a.createdDate
      && r.record.createdAt == a.createdAt
      && r.record.updatedAt == now
      && (!Mentions(updates, "accountname") ==> r.record.accountName == a.accountName && "accountname" !in r.nulled)
      && (!Mentions(updates, "currentbalance") ==> r.record.currentBalance == a.currentBalance)
      && (!Mentions(updates, "currency") ==> r.record.currency == a.currency && "currency" !in r.nulled)
      && (!Mentions(updates, "description") ==> r.record.description == a.description)
      && (!Mentions(updates, "isactive") ==> r.record.isActive == a.isActive)
      && r.nulled <= {"accountname", "currency"}
  {
    PatchFromChangesOnlyNamedFields(Draft(a, {}), updates);
    assert forall field :: field in Selected(updates) <==> Mentions(updates, field);
  }

  /** An empty body still stamps `UpdatedAt` and changes nothing else. */
  lemma EmptyPatchOnlyStamps(a: Account, now: Timestamp)
    ensures Patched(a, [], now) == Some(Draft(a.(updatedAt := now), {}))
  {
  }

  lemma {:induction false} PatchFromIgnoresUnknownKeys(d: Draft<Account>, us: seq<Update>)
    decreases |us|
    ensures PatchFrom(d, us) == PatchFrom(d, KnownOnly(us, PatchableFields))
  {
    if us != [] {
      if ToLower(us[0].key) in PatchableFields {
        var known := [us[0]] + KnownOnly(us[1..], PatchableFields);
        assert known[0] == us[0] && known[1..] == KnownOnly(us[1..], PatchableFields);
        match PatchStep(d, us[0])
        case None =>
        case Some(d') => PatchFromIgnoresUnknownKeys(d', us[1..]);
      } else {
        assert PatchStep(d, us[0]) == Some(d);
        assert KnownOnly(us, PatchableFields) == KnownOnly(us[1..], PatchableFields);
        PatchFromIgnoresUnknownKeys(d, us[1..]);
      }
    }
  }

  /** Unknown keys are ignored: the body acts as its recognised entries alone. */
  lemma UnknownKeysIgnored(a: Account, updates: seq<Update>, now: Timestamp)
    ensures Patched(a, updates, now) == Patched(a, KnownOnly(updates, PatchableFields), now)
  {
    PatchFromIgnoresUnknownKeys(Draft(a, {}), updates);
  }

  lemma {:induction false} PatchFromIgnoresKeyCase(d: Draft<Account>, us: seq<Update>)
    decreases |us|
    ensures PatchFrom(d, us) == PatchFrom(d, LoweredKeys(us))
  {
    if us != [] {
      var lowered := LoweredKeys(us);
      assert lowered[1..] == LoweredKeys(us[1..]);
      ToLowerIdempotent(us[0].key);
      assert PatchStep(d, us[0]) == PatchStep(d, lowered[0]);
      match PatchStep(d, us[0])
      case None =>
      case Some(d') => PatchFromIgnoresKeyCase(d', us[1..]);
    }
  }

  /** Keys are matched whatever their case: "CurrentBalance", "CURRENTBALANCE" and "currentbalance" set the same field. */
  lemma KeyCaseIgnored(a: Account, updates: seq<Update>, now: Timestamp)
    ensures Patched(a, updates, now) == Patched(a, LoweredKeys(updates), now)
  {
    PatchFromIgnoresKeyCase(Draft(a, {}), updates);
  }

  lemma BalanceKeyOverwrites(a: Account, key: string, v: Value, x: Cents)
    requires ToLower(key) == "currentbalance" && v.decimal == Some(x)
    ensures PatchStep(Draft(a, {}), Update(key, v)) == Some(Draft(a.(currentBalance := x), {}))
  {
    assert |"currentbalance"| != |"accountname"|;
  }

  /**
   * An entry whose key lowers to "currentbalance" (whatever its case) overwrites the
   * cached balance with what it carries: any value other than the ledger-implied one
   * leaves the row unreconciled.
   */
  lemma BalancePatchBreaksReconciliation(
    a: Account, key: string, v: Value, x: Cents, ledger: seq<Transaction>, now: Timestamp)
    requires ToLower(key) == "currentbalance" && v.decimal == Some(x) && x != Recomputed(a, ledger)
    ensures Patched(a, [Update(key, v)], now) == Some(Draft(a.(currentBalance := x, updatedAt := now), {}))
    ensures !Reconciled([a.(currentBalance := x, updatedAt := now)], ledger)
  {
    BalancePatchOverwrites(a, key, v, x, now);
    var row := a.(currentBalance := x, updatedAt := now);
    assert Recomputed(row, ledger) == Recomputed(a, ledger);
    assert [row][0] == row;
  }

  lemma BalancePatchOverwrites(a: Account, key: string, v: Value, x: Cents, now: Timestamp)
    requires ToLower(key) == "currentbalance" && v.decimal == Some(x)
    ensures Patched(a, [Update(key, v)], now) == Some(Draft(a.(currentBalance := x, updatedAt := now), {}))
  {
    var us := [Update(key, v)];
    BalanceKeyOverwrites(a, key, v, x);
    assert us[1..] == [];
    assert PatchFrom(Draft(a.(currentBalance := x), {}), us[1..]) == Some(Draft(a.(currentBalance := x), {}));
  }

  // ---------------------------------------------------------------------------
  // The controller

  class AccountsController {

    const context: AppDbContext

    constructor (context: AppDbContext)
      ensures this.context == context
    {
      this.context := context;
    }

    /**
     * PATCH api/accounts/{id}: applies the body, stamps `UpdatedAt` and saves. A conversion
     * that throws or a required column left null fails the request. The store stays
     * reconciled exactly when the patched row's balance is the ledger-implied one, which
     * holds whenever no key selects `currentbalance`.
     */
    method PatchAccount(id: int, updates: seq<Update>, now: Timestamp) returns (status: Status)
      requires context.Valid()
      modifies context`accounts
      ensures context.Valid()
      ensures FindAccount(old(context.accounts), id).None? ==> status == NotFound && unchanged(context)
      ensures FindAccount(old(context.accounts), id).Some? ==>
        var k := FindAccount(old(context.accounts), id).value;
        match Patched(old(context.accounts)[k], updates, now)
        case None => status == ServerError && unchanged(context)
        case Some(d) =>
          if d.nulled == {} then
            status == NoContent && context.accounts == old(context.accounts)[k := d.record]
          else
            status == ServerError && unchanged(context)
      ensures (status == NoContent && Reconciled(old(context.accounts), context.transactions)) ==>
        var k := FindAccount(old(context.accounts), id).value;
        (Reconciled(context.accounts, context.transactions)
         <==> context.accounts[k].currentBalance == Recomputed(context.accounts[k], context.transactions))
      ensures (Reconciled(old(context.accounts), context.transactions) && !Mentions(updates, "currentbalance")) ==>
        Reconciled(context.accounts, context.transactions)
    {
      var found := FindAccount(context.accounts, id);
      if found.None? {
        return NotFound;
      }
      var k := found.value;
      var patched := ApplyPatch(context.accounts[k], updates, now);
      if patched.None? || patched.value.nulled != {} {
        return ServerError;
      }
      PatchChangesOnlyNamedFields(context.accounts[k], updates, now);
      var before := context.accounts;
      context.accounts := context.accounts[k := patched.value.record];
      KeysUnchangedKeepConstraints(before, context.accounts, context.transactions);
      status := NoContent;
    }

    /**
     * PUT api/accounts/{id}: the stored row is replaced by the body; the save fails when
     * the body's key clashes with another account or strands referencing entries.
     * The store stays reconciled exactly when the body's balance is the ledger-implied one.
     */
    method PutAccount(id: int, account: Account) returns (status: Status)
      requires context.Valid()
      modifies context`accounts
      ensures context.Valid()
      ensures id != account.id ==> status == BadRequest && unchanged(context)
      ensures id == account.id && FindAccount(old(context.accounts), id).None? ==> status == NotFound && unchanged(context)
      ensures id == account.id && FindAccount(old(context.accounts), id).Some? ==>
        var accounts := old(context.accounts)[FindAccount(old(context.accounts), id).value := account];
        if Constraints(accounts, context.transactions) then status == NoContent && context.accounts == accounts
        else status == ServerError && unchanged(context)
      ensures (status == NoContent && Reconciled(old(context.accounts), context.transactions)) ==>
        (Reconciled(context.accounts, context.transactions)
         <==> account.currentBalance == Recomputed(account, context.transactions))
    {
      if id != account.id {
        return BadRequest;
      }
      var found := FindAccount(context.accounts, id);
      if found.None? {
        return NotFound;
      }
      var k := found.value;
      var accounts := context.accounts[k := account];
      if !Constraints(accounts, context.transactions) {
        return ServerError;
      }
      context.accounts := accounts;
      status := NoContent;
      if Reconciled(old(context.accounts), context.transactions) {
        assert accounts[k] == account;
        if account.currentBalance == Recomputed(account, context.transactions) {
          assert forall j :: 0 <= j < |accounts| && j != k ==> accounts[j] == old(context.accounts)[j];
        }
      }
    }

    /**
     * POST api/accounts: the row is inserted with the next identity value. A body that
     * carries its own `Id`, or reuses an existing `AccountId`, fails the save. `IsActive`
     * has a store default of true that the insert uses whenever the body says false.
     * A new account has no entries yet, so the store stays reconciled exactly when its
     * balance equals its initial deposit.
     */
    method PostAccount(account: Account) returns (status: Status)
      requires context.Valid()
      modifies context`accounts, context`accountSeed
      ensures context.Valid()
      ensures var row := account.(id := old(context.accountSeed), isActive := true);
        if account.id == 0 && !HasAccount(old(context.accounts), account.accountId) then
          status == Created(row.id) && context.accounts == old(context.accounts) + [row]
        else
          status == ServerError && unchanged(context)
      ensures (status.Created? && Reconciled(old(context.accounts), context.transactions)) ==>
        (Reconciled(context.accounts, context.transactions) <==> account.currentBalance == account.initialDeposit)
    {
      if account.id != 0 {
        return ServerError;
      }
      var row := account.(id := context.accountSeed, isActive := true);
      var accounts := context.accounts + [row];
      if !Constraints(accounts, context.transactions) {
        assert HasAccount(context.accounts, account.accountId) by {
          if !HasAccount(context.accounts, account.accountId) {
            assert ForeignKeysHold(accounts, context.transactions) by {
              forall i | 0 <= i < |context.transactions|
                ensures HasAccount(accounts, context.transactions[i].accountId)
              {
                var j :| 0 <= j < |context.accounts| && context.accounts[j].accountId == context.transactions[i].accountId;
                assert accounts[j] == context.accounts[j];
              }
            }
          }
        }
        return ServerError;
      }
      forall j | 0 <= j < |context.accounts|
        ensures context.accounts[j].accountId != account.accountId
      {
        assert accounts[j] == context.accounts[j] && accounts[|accounts| - 1] == row;
      }
      context.accounts := accounts;
      context.accountSeed := context.accountSeed + 1;
      status := Created(row.id);
      NewKeyHasNoEntries(old(context.accounts), context.transactions, row);
      assert accounts[|accounts| - 1] == row;
      assert forall j :: 0 <= j < |old(context.accounts)| ==> accounts[j] == old(context.accounts)[j];
    }

    /**
     * DELETE api/accounts/{id}: the row is removed, unless entries still reference its
     * key, in which case the restricting foreign key fails the save.
     */
    method DeleteAccount(id: int) returns (status: Status)
      requires context.Valid()
      modifies context`accounts
      ensures context.Valid()
      ensures FindAccount(old(context.accounts), id).None? ==> status == NotFound && unchanged(context)
      ensures FindAccount(old(context.accounts), id).Some? ==>
        var k := FindAccount(old(context.accounts), id).value;
        if Referenced(context.transactions, old(context.accounts)[k].accountId) then
          status == ServerError && unchanged(context)
        else
          status == NoContent && context.accounts == RemoveAt(old(context.accounts), k)
      ensures Reconciled(old(context.accounts), context.transactions) ==> Reconciled(context.accounts, context.transactions)
    {
      var found := FindAccount(context.accounts, id);
      if found.None? {
        return NotFound;
      }
      var k := found.value;
      var accounts := RemoveAt(context.accounts, k);
      if !Constraints(accounts, context.transactions) {
        StrandedEntryIsReferenced(context.accounts, context.transactions, k);
        return ServerError;
      }
      context.accounts := accounts;
      status := NoContent;
    }
  }

  /** A key no account has is referenced by no entry, so a new account's ledger-implied balance is its initial deposit. */
  lemma NewKeyHasNoEntries(accounts: seq<Account>, ledger: seq<Transaction>, a: Account)
    requires ForeignKeysHold(accounts, ledger) && !HasAccount(accounts, a.accountId)
    ensures Recomputed(a, ledger) == a.initialDeposit
  {
    NoEntriesSumToNothing(ledger, a.accountId, Deposit);
    NoEntriesSumToNothing(ledger, a.accountId, Withdrawal);
  }

  lemma {:induction false} NoEntriesSumToNothing(ledger: seq<Transaction>, accountId: string, kind: string)
    requires forall i :: 0 <= i < |ledger| ==> ledger[i].accountId != accountId
    decreases |ledger|
    ensures SumOf(ledger, accountId, kind) == 0
  {
    if ledger != [] {
      NoEntriesSumToNothing(ledger[1..], accountId, kind);
    }
  }

  /** Removing row `k` breaks a constraint only when some entry references its key. */
  lemma StrandedEntryIsReferenced(accounts: seq<Account>, ledger: seq<Transaction>, k: nat)
    requires k < |accounts| && Constraints(accounts, ledger)
    requires !Constraints(RemoveAt(accounts, k), ledger)
    ensures Referenced(ledger, accounts[k].accountId)
  {
    var rest := RemoveAt(accounts, k);
    assert UniqueBusinessKeys(rest) by {
      forall i, j | 0 <= i < j < |rest|
        ensures rest[i].accountId != rest[j].accountId
      {
        var i' := if i < k then i else i + 1;
        var j' := if j < k then j else j + 1;
        assert rest[i] == accounts[i'] && rest[j] == accounts[j'];
      }
    }
    var i :| 0 <= i < |ledger| && !HasAccount(rest, ledger[i].accountId);
    forall m | 0 <= m < |accounts| && m != k
      ensures accounts[m].accountId != ledger[i].accountId
    {
      var m' := if m < k then m else m - 1;
      assert rest[m'] == accounts[m];
    }
    assert ledger[i].accountId == accounts[k].accountId;
  }
}
