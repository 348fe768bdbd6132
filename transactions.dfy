/**
 * The ledger endpoints (Controllers/TransactionsController.cs): the read queries,
 * the case-insensitive PATCH body, the choice of which balances a PATCH recomputes,
 * and the controller whose writes keep, or fail to keep, every account's
 * `CurrentBalance` equal to `InitialDeposit + deposits - withdrawals`.
 */
module Transactions {

  import opened Wrappers
  import opened Text
  import opened Models
  import opened Data
  import opened Ledger
  import Query

  // ---------------------------------------------------------------------------
  // Queries

  /** `OrderByDescending(t => t.TransactionDate)`: later entries first. */
  predicate LaterFirst(a: Transaction, b: Transaction) {
    a.transactionDate >= b.transactionDate
  }

  lemma LaterFirstIsTotalPreorder()
    ensures Query.TotalPreorder(LaterFirst)
  {
  }

  predicate Latest(s: seq<Transaction>) {
    forall i, j :: 0 <= i < j < |s| ==> s[i].transactionDate >= s[j].transactionDate
  }

  /** GET api/transactions: every entry, latest first. */
  function GetTransactions(ledger: seq<Transaction>): (r: seq<Transaction>)
    ensures multiset(r) == multiset(ledger)
    ensures Latest(r)
  {
    LaterFirstIsTotalPreorder();
    Query.SortBy(ledger, LaterFirst)
  }

  /** GET api/transactions/by-account/{accountId}: the entries of that account (exact match), latest first. */
  function GetTransactionsByAccount(ledger: seq<Transaction>, accountId: string): (r: seq<Transaction>)
    ensures forall t :: multiset(r)[t] == if t.accountId == accountId then multiset(ledger)[t] else 0
    ensures Latest(r)
  {
    LaterFirstIsTotalPreorder();
    Query.SortBy(Query.Filter(ledger, (t: Transaction) => t.accountId == accountId), LaterFirst)
  }

  /** GET api/transactions/by-type/{type}: the entries whose type equals `kind` up to case, latest first. */
  function GetTransactionsByType(ledger: seq<Transaction>, kind: string): (r: seq<Transaction>)
    ensures forall t :: multiset(r)[t] == if ToUpper(t.kind) == ToUpper(kind) then multiset(ledger)[t] else 0
    ensures Latest(r)
  {
    LaterFirstIsTotalPreorder();
    Query.SortBy(Query.Filter(ledger, (t: Transaction) => ToUpper(t.kind) == ToUpper(kind)), LaterFirst)
  }

  /** GET api/transactions/date-range: the entries dated within both bounds inclusive, latest first. */
  function GetTransactionsByDateRange(ledger: seq<Transaction>, startDate: Timestamp, endDate: Timestamp)
    : (r: seq<Transaction>)
    ensures forall t :: multiset(r)[t] == (if startDate <= t.transactionDate <= endDate then multiset(ledger)[t] else 0)
    ensures Latest(r)
  {
    LaterFirstIsTotalPreorder();
    Query.SortBy(Query.Filter(ledger, (t: Transaction) => startDate <= t.transactionDate <= endDate), LaterFirst)
  }

  datatype TransactionSummary = TransactionSummary(
    accountId: string, totalDeposits: Cents, totalWithdrawals: Cents, netAmount: Cents)

  /** GET api/transactions/summary/{accountId}: exact-type sums, and their difference. */
  function GetTransactionSummary(ledger: seq<Transaction>, accountId: string): (r: TransactionSummary)
    ensures r.accountId == accountId
    ensures r.netAmount == r.totalDeposits - r.totalWithdrawals
  {
    var deposits := SumOf(ledger, accountId, Deposit);
    var withdrawals := SumOf(ledger, accountId, Withdrawal);
    TransactionSummary(accountId, deposits, withdrawals, deposits - withdrawals)
  }

  /** On a reconciled store the summary's net amount is exactly what the balance holds above the initial deposit. */
  lemma SummaryMatchesBalance(accounts: seq<Account>, ledger: seq<Transaction>, j: nat)
    requires Reconciled(accounts, ledger) && j < |accounts|
    ensures accounts[j].currentBalance
         == accounts[j].initialDeposit + GetTransactionSummary(ledger, accounts[j].accountId).netAmount
  {
  }

  lemma UpperCaseOfDeposit()
    ensures ToUpper("deposit") == ToUpper(Deposit) == Deposit
  {
    assert ToUpper("deposit") == Deposit;
    assert ToUpper(Deposit) == Deposit;
  }

  /**
   * A lower-case "deposit" entry is listed by `by-type/DEPOSIT`: the type filter folds case.
   */
  lemma LowerCaseTypeIsListed(ledger: seq<Transaction>, t: Transaction)
    requires t.kind == "deposit"
    ensures t in GetTransactionsByType(ledger + [t], Deposit)
  {
    var r := GetTransactionsByType(ledger + [t], Deposit);
    UpperCaseOfDeposit();
    assert multiset(ledger + [t])[t] > 0;
    assert multiset(r)[t] > 0;
  }

  /**
   * ...yet the summary and the balance ignore it: their sums compare the type exactly.
   */
  lemma LowerCaseTypeIsNotCounted(ledger: seq<Transaction>, t: Transaction, a: Account)
    requires t.kind == "deposit"
    ensures GetTransactionSummary(ledger + [t], a.accountId) == GetTransactionSummary(ledger, a.accountId)
    ensures Recomputed(a, ledger + [t]) == Recomputed(a, ledger)
  {
    assert t.kind != Deposit && t.kind != Withdrawal by {
      assert t.kind[0] != Deposit[0];
      assert |t.kind| != |Withdrawal|;
    }
    SumOfConcat(ledger, [t], a.accountId, Deposit);
    SumOfConcat(ledger, [t], a.accountId, Withdrawal);
    assert [t][1..] == [];
    OtherTypesCountForNothing(ledger, t, a);
  }

  // ---------------------------------------------------------------------------
  // The PATCH body

  /** The fields the `switch (update.Key.ToLower())` recognises. */
  const PatchableFields: set<string> := {"amount", "type", "description", "transactiondate", "accountid"}

  /** One iteration of the `foreach`; None when a conversion throws. */
  function PatchStep(d: Draft<Transaction>, u: Update): Option<Draft<Transaction>> {
    var t := d.record;
    var field := ToLower(u.key);
    if field == "amount" then
      match u.value.decimal
      case None => None
      case Some(x) => Some(d.(record := t.(amount := x)))
    else if field == "type" then
      match u.value.text
      case None => Some(d.(nulled := d.nulled + {"type"}))
      case Some(s) => Some(Draft(t.(kind := ToUpper(s)), d.nulled - {"type"}))
    else if field == "description" then
      Some(d.(record := t.(description := u.value.text)))
    else if field == "transactiondate" then
      match u.value.dateTime
      case None => None
      case Some(x) => Some(d.(record := t.(transactionDate := x)))
    else if field == "accountid" then
      match u.value.text
      case None => Some(d.(nulled := d.nulled + {"accountid"}))
      case Some(s) => Some(Draft(t.(accountId := s), d.nulled - {"accountid"}))
    else
      Some(d)
  }

  /** The rest of the body `us` applied to `d`, in enumeration order; the first throw ends it. */
  function PatchFrom(d: Draft<Transaction>, us: seq<Update>): Option<Draft<Transaction>>
    decreases |us|
  {
    if us == [] then Some(d)
    else match PatchStep(d, us[0])
      case None => None
      case Some(d') => PatchFrom(d', us[1..])
  }

  /** The entry after the whole body, with the required columns it left null. */
  function Patched(t: Transaction, updates: seq<Update>): Option<Draft<Transaction>> {
    PatchFrom(Draft(t, {}), updates)
  }

  /** The `foreach` over the body, updating the tracked entry field by field. */
  method ApplyPatch(t: Transaction, updates: seq<Update>) returns (r: Option<Draft<Transaction>>)
    ensures r == Patched(t, updates)
  {
    var transaction := t;
    var nulled: set<string> := {};
    var i := 0;
    while i < |updates|
      invariant 0 <= i <= |updates|
      invariant Patched(t, updates) == PatchFrom(Draft(transaction, nulled), updates[i..])
    {
      var update := updates[i];
      assert updates[i..][0] == update && updates[i..][1..] == updates[i + 1..];
      var field := ToLower(update.key);
      if field == "amount" {
        match update.value.decimal {
          case None => return None;
          case Some(x) => transaction := transaction.(amount := x);
        }
      } else if field == "type" {
        match update.value.text {
          case None => nulled := nulled + {"type"};
          case Some(s) =>
            transaction := transaction.(kind := ToUpper(s));
            nulled := nulled - {"type"};
        }
      } else if field == "description" {
        transaction := transaction.(description := update.value.text);
      } else if field == "transactiondate" {
        match update.value.dateTime {
          case None => return None;
          case Some(x) => transaction := transaction.(transactionDate := x);
        }
      } else if field == "accountid" {
        match update.value.text {
          case None => nulled := nulled + {"accountid"};
          case Some(s) =>
            transaction := transaction.(accountId := s);
            nulled := nulled - {"accountid"};
        }
      }
      i := i + 1;
    }
    r := Some(Draft(transaction, nulled));
  }

  /** `r` differs from `d` only in the columns `sel` names, and nulls only the two required text columns. */
  predicate KeepsUnselected(d: Draft<Transaction>, r: Draft<Transaction>, sel: set<string>) {
    && r.record.id == d.record.id
    && r.record.createdAt == d.record.createdAt
    && ("amount" !in sel ==> r.record.amount == d.record.amount)
    && ("type" !in sel ==> r.record.kind == d.record.kind && ("type" in r.nulled <==> "type" in d.nulled))
    && ("description" !in sel ==> r.record.description == d.record.description)
    && ("transactiondate" !in sel ==> r.record.transactionDate == d.record.transactionDate)
    && ("accountid" !in sel ==> r.record.accountId == d.record.accountId && ("accountid" in r.nulled <==> "accountid" in d.nulled))
    && r.nulled <= d.nulled + {"type", "accountid"}
  }

  lemma PatchStepChangesOnlyItsField(d: Draft<Transaction>, u: Update)
    requires PatchStep(d, u).Some?
    ensures KeepsUnselected(d, PatchStep(d, u).value, {ToLower(u.key)})
  {
  }

  lemma {:induction false} PatchFromChangesOnlyNamedFields(d: Draft<Transaction>, us: seq<Update>)
    requires PatchFrom(d, us).Some?
    decreases |us|
    ensures KeepsUnselected(d, PatchFrom(d, us).value, Selected(us))
  {
    if us != [] {
      var d' := PatchStep(d, us[0]).value;
      PatchStepChangesOnlyItsField(d, us[0]);
      PatchFromChangesOnlyNamedFields(d', us[1..]);
      assert Selected(us) == {ToLower(us[0].key)} + Selected(us[1..]);
    }
  }

  /**
   * The body changes only what it names: `Id` and `CreatedAt` never, every other
   * column only when some key selects it, and the only columns it can leave null are
   * the two required text columns, each only when some key selects it.
   */
  lemma PatchChangesOnlyNamedFields(t: Transaction, updates: seq<Update>)
    requires Patched(t, updates).Some?
    ensures var r := Patched(t, updates).value;
      && r.record.id == t.id
      && r.record.createdAt == t.createdAt
      && (!Mentions(updates, "amount") ==> r.record.amount == t.amount)
      && (!Mentions(updates, "type") ==> r.record.kind == t.kind && "type" !in r.nulled)
      && (!Mentions(updates, "description") ==> r.record.description == t.description)
      && (!Mentions(updates, "transactiondate") ==> r.record.transactionDate == t.transactionDate)
      && (!Mentions(updates, "accountid") ==> r.record.accountId == t.accountId && "accountid" !in r.nulled)
      && r.nulled <= {"type", "accountid"}
  {
    PatchFromChangesOnlyNamedFields(Draft(t, {}), updates);
    assert forall field :: field in Selected(updates) <==> Mentions(updates, field);
  }

  lemma {:induction false} PatchFromIgnoresKeyCase(d: Draft<Transaction>, us: seq<Update>)
    decreases |us|
    ensures PatchFrom(d, us) == PatchFrom(d, LoweredKeys(us))
  {
    if us != [] {
      var lowered := LoweredKeys(us);
      assert lowered[1..] == LoweredKeys(us[1..]);
      ToLowerIdempotent(us[0].key);
      assert PatchStep(d, us[0]) == PatchStep(d, lowered[0]);
      match PatchStep(d, us[0])
      case None =>
      case Some(d') => PatchFromIgnoresKeyCase(d', us[1..]);
    }
  }

  /** Keys are matched whatever their case: "Amount", "AMOUNT" and "amount" set the same field. */
  lemma KeyCaseIgnored(t: Transaction, updates: seq<Update>)
    ensures Patched(t, updates) == Patched(t, LoweredKeys(updates))
  {
    PatchFromIgnoresKeyCase(Draft(t, {}), updates);
  }

  /** Unknown keys are ignored: the body acts as its recognised entries alone. */
  lemma {:induction false} UnknownKeysIgnored(d: Draft<Transaction>, us: seq<Update>)
    decreases |us|
    ensures PatchFrom(d, us) == PatchFrom(d, KnownOnly(us, PatchableFields))
  {
    if us != [] {
      if ToLower(us[0].key) in PatchableFields {
        var known := [us[0]] + KnownOnly(us[1..], PatchableFields);
        assert known[0] == us[0] && known[1..] == KnownOnly(us[1..], PatchableFields);
        match PatchStep(d, us[0])
        case None =>
        case Some(d') => UnknownKeysIgnored(d', us[1..]);
      } else {
        assert PatchStep(d, us[0]) == Some(d);
        assert KnownOnly(us, PatchableFields) == KnownOnly(us[1..], PatchableFields);
        UnknownKeysIgnored(d, us[1..]);
      }
    }
  }

  // ---------------------------------------------------------------------------
  // Which balances a PATCH recomputes

  /**
   * The accounts PATCH recomputes, in call order: both the old and the new account when
   * the exact key "accountid" is present and the account changed; otherwise the
   * entry's account when the exact key "amount" or "type" is present; otherwise none.
   */
  function AccountsToRecalculate(updates: seq<Update>, original: Transaction, patched: Transaction): (r: seq<string>)
    ensures |r| <= 2
  {
    if ContainsKey(updates, "accountid") && original.accountId != patched.accountId then
      [original.accountId, patched.accountId]
    else if ContainsKey(updates, "amount") || ContainsKey(updates, "type") then
      [patched.accountId]
    else
      []
  }

  /** With keys written in lower case, a key that selects `field` is the exact key `field`. */
  lemma LowerCaseMentionIsExact(updates: seq<Update>, field: string)
    requires LowerCaseKeys(updates) && Mentions(updates, field)
    ensures ContainsKey(updates, field)
  {
    var i :| 0 <= i < |updates| && ToLower(updates[i].key) == field;
    assert IsLowerCase(updates[i].key);
  }

  /** An entry's contribution to an account moves only through a key that selects its account, amount or type. */
  lemma ContributionMovesOnlyIfNamed(t: Transaction, updates: seq<Update>, accountId: string)
    requires Patched(t, updates).Some?
    requires Contribution(t, accountId) != Contribution(Patched(t, updates).value.record, accountId)
    ensures var p := Patched(t, updates).value.record;
      || (t.accountId != p.accountId && (accountId == t.accountId || accountId == p.accountId)
          && Mentions(updates, "accountid"))
      || (t.accountId == p.accountId == accountId && (Mentions(updates, "amount") || Mentions(updates, "type")))
  {
    PatchChangesOnlyNamedFields(t, updates);
  }

  /**
   * With lower-case keys the recomputation covers every account whose ledger-implied
   * balance the patched entry moved.
   */
  lemma LowerCaseKeysRecalculateEveryAffectedAccount(t: Transaction, updates: seq<Update>, accountId: string)
    requires Patched(t, updates).Some? && LowerCaseKeys(updates)
    requires Contribution(t, accountId) != Contribution(Patched(t, updates).value.record, accountId)
    ensures accountId in AccountsToRecalculate(updates, t, Patched(t, updates).value.record)
  {
    var p := Patched(t, updates).value.record;
    ContributionMovesOnlyIfNamed(t, updates, accountId);
    var ids := AccountsToRecalculate(updates, t, p);
    if t.accountId != p.accountId {
      LowerCaseMentionIsExact(updates, "accountid");
      assert ids == [t.accountId, p.accountId];
    } else if Mentions(updates, "amount") {
      LowerCaseMentionIsExact(updates, "amount");
      assert ids == [p.accountId];
    } else {
      LowerCaseMentionIsExact(updates, "type");
      assert ids == [p.accountId];
    }
  }

  /**
   * The key "Amount" still patches the amount, but no exact key names it, so nothing
   * is recomputed although a DEPOSIT or WITHDRAWAL entry's contribution moved.
   */
  lemma MixedCaseAmountSkipsRecalculation(t: Transaction, v: Value, x: Cents)
    requires v.decimal == Some(x)
    ensures Patched(t, [Update("Amount", v)]) == Some(Draft(t.(amount := x), {}))
    ensures AccountsToRecalculate([Update("Amount", v)], t, t.(amount := x)) == []
    ensures (t.kind == Deposit || t.kind == Withdrawal) && x != t.amount ==>
      Contribution(t, t.accountId) != Contribution(t.(amount := x), t.accountId)
  {
    var us := [Update("Amount", v)];
    assert ToLower("Amount") == "amount";
    var d := Draft(t.(amount := x), {});
    assert PatchStep(Draft(t, {}), us[0]) == Some(d);
    assert us[1..] == [];
    assert PatchFrom(d, us[1..]) == Some(d);
    assert Patched(t, us) == Some(d);
    assert !ContainsKey(us, "amount") by { assert us[0].key[0] != "amount"[0]; }
    assert !ContainsKey(us, "type") && !ContainsKey(us, "accountid") by {
      assert |us[0].key| != |"type"| && |us[0].key| != |"accountid"|;
    }
  }

  lemma AccountIdKeyMovesEntry(t: Transaction, v: Value, b: string)
    requires v.text == Some(b)
    ensures PatchStep(Draft(t, {}), Update("AccountId", v)) == Some(Draft(t.(accountId := b), {}))
  {
    var field := ToLower("AccountId");
    assert field == "accountid";
    assert field != "amount" && field != "type" && field != "description" && field != "transactiondate" by {
      assert |field| == 9;
    }
    assert {} - {"accountid"} == {};
  }

  /**
   * The key "AccountId" still moves the entry, but no exact key "accountid" is present,
   * so neither the old nor the new account is recomputed.
   */
  lemma MixedCaseAccountIdSkipsRecalculation(t: Transaction, v: Value, b: string)
    requires v.text == Some(b) && b != t.accountId
    ensures Patched(t, [Update("AccountId", v)]) == Some(Draft(t.(accountId := b), {}))
    ensures AccountsToRecalculate([Update("AccountId", v)], t, t.(accountId := b)) == []
    ensures Delta(t.kind, t.amount) != 0 ==>
      Contribution(t, t.accountId) != Contribution(t.(accountId := b), t.accountId)
      && Contribution(t, b) != Contribution(t.(accountId := b), b)
  {
    var us := [Update("AccountId", v)];
    var d := Draft(t.(accountId := b), {});
    AccountIdKeyMovesEntry(t, v, b);
    assert us[1..] == [];
    assert PatchFrom(d, us[1..]) == Some(d);
    assert Patched(t, us) == Some(d);
    assert !ContainsKey(us, "accountid") by { assert us[0].key[0] != "accountid"[0]; }
    assert !ContainsKey(us, "amount") && !ContainsKey(us, "type") by {
      assert |us[0].key| != |"amount"| && |us[0].key| != |"type"|;
    }
  }

  /**
   * A PATCH with lower-case keys, followed by the recomputations `AccountsToRecalculate`
   * names, leaves a reconciled store reconciled.
   */
  lemma LowerCasePatchKeepsReconciled(
    accounts: seq<Account>, ledger: seq<Transaction>, k: nat, updates: seq<Update>, now: Timestamp, after: seq<Account>)
    requires k < |ledger| && Patched(ledger[k], updates).Some? && LowerCaseKeys(updates)
    requires Reconciled(accounts, ledger)
    requires |after| == |accounts|
    requires forall j :: 0 <= j < |accounts| ==>
      var p := Patched(ledger[k], updates).value.record;
      after[j] == Refreshed(accounts[j], ledger[k := p], AccountsToRecalculate(updates, ledger[k], p), now)
    ensures Reconciled(after, ledger[k := Patched(ledger[k], updates).value.record])
  {
    var p := Patched(ledger[k], updates).value.record;
    var ids := AccountsToRecalculate(updates, ledger[k], p);
    forall j | 0 <= j < |accounts| && accounts[j].accountId !in ids
      ensures Net(ledger[k := p], accounts[j].accountId) == Net(ledger, accounts[j].accountId)
    {
      ReplacementMatchesRecompute(ledger, k, p, accounts[j]);
      if Contribution(ledger[k], accounts[j].accountId) != Contribution(p, accounts[j].accountId) {
        LowerCaseKeysRecalculateEveryAffectedAccount(ledger[k], updates, accounts[j].accountId);
      }
    }
    RefreshKeepsReconciled(accounts, ledger, ledger[k := p], ids, now, after);
  }

  // ---------------------------------------------------------------------------
  // The controller

  class TransactionsController {

    const context: AppDbContext

    constructor (context: AppDbContext)
      ensures this.context == context
    {
      this.context := context;
    }

    /** `UpdateAccountBalance`: the first account with that key moves by `Delta(kind, amount)` and is stamped. */
    method UpdateAccountBalance(accountId: string, kind: string, amount: Cents, now: Timestamp)
      requires context.Valid()
      modifies context`accounts
      ensures context.Valid()
      ensures |context.accounts| == |old(context.accounts)|
      ensures forall j :: 0 <= j < |context.accounts| ==>
        context.accounts[j] == Incremented(old(context.accounts[j]), accountId, kind, amount, now)
    {
      var found := FindAccountByKey(context.accounts, accountId);
      if found.Some? {
        var i := found.value;
        var account := context.accounts[i];
        var balance := account.currentBalance;
        if kind == Deposit {
          balance := balance + amount;
        } else if kind == Withdrawal {
          balance := balance - amount;
        }
        context.accounts := context.accounts[i := account.(currentBalance := balance, updatedAt := now)];
      }
      KeysUnchangedKeepConstraints(old(context.accounts), context.accounts, context.transactions);
    }

    /** `RecalculateAccountBalance`: the account with that key gets `InitialDeposit + deposits - withdrawals`. */
    method RecalculateAccountBalance(accountId: string, now: Timestamp)
      requires context.Valid()
      modifies context`accounts
      ensures context.Valid()
      ensures |context.accounts| == |old(context.accounts)|
      ensures forall j :: 0 <= j < |context.accounts| ==>
        context.accounts[j] == Refreshed(old(context.accounts[j]), context.transactions, [accountId], now)
    {
      var found := FindAccountByKey(context.accounts, accountId);
      if found.Some? {
        var i := found.value;
        var account := context.accounts[i];
        var deposits := SumOf(context.transactions, accountId, Deposit);
        var withdrawals := SumOf(context.transactions, accountId, Withdrawal);
        context.accounts := context.accounts[i := account.(
          currentBalance := account.initialDeposit + deposits - withdrawals, updatedAt := now)];
      }
      KeysUnchangedKeepConstraints(old(context.accounts), context.accounts, context.transactions);
    }

    /**
     * POST api/transactions: the entry is inserted with the next identity value, then
     * its account's balance is moved incrementally. A body that carries its own `Id`
     * (an explicit value for the identity column) or names no existing account fails the save.
     */
    method PostTransaction(transaction: Transaction, now: Timestamp) returns (status: Status)
      requires context.Valid()
      modifies context`transactions, context`transactionSeed, context`accounts
      ensures context.Valid()
      ensures var t := transaction.(id := old(context.transactionSeed));
        if transaction.id == 0 && HasAccount(old(context.accounts), transaction.accountId) then
          && status == Created(t.id)
          && context.transactions == old(context.transactions) + [t]
          && context.transactionSeed == old(context.transactionSeed) + 1
          && |context.accounts| == |old(context.accounts)|
          && forall j :: 0 <= j < |context.accounts| ==>
               context.accounts[j] == Incremented(old(context.accounts[j]), t.accountId, t.kind, t.amount, now)
        else
          status == ServerError && unchanged(context)
      ensures Reconciled(old(context.accounts), old(context.transactions)) ==>
        Reconciled(context.accounts, context.transactions)
    {
      if transaction.id != 0 {
        return ServerError;
      }
      var t := transaction.(id := context.transactionSeed);
      var ledger := context.transactions + [t];
      AppendedEntryNeedsItsAccount(context.accounts, context.transactions, t);
      if !Constraints(context.accounts, ledger) {
        return ServerError;
      }
      context.transactions := ledger;
      context.transactionSeed := context.transactionSeed + 1;
      UpdateAccountBalance(t.accountId, t.kind, t.amount, now);
      status := Created(t.id);
      if Reconciled(old(context.accounts), old(context.transactions)) {
        IncrementKeepsReconciled(old(context.accounts), old(context.transactions), t, now, context.accounts);
      }
    }

    /**
     * PUT api/transactions/{id}: the stored entry is replaced by the body, then only the
     * body's account is recomputed. When the body moves a DEPOSIT or WITHDRAWAL to another
     * account, the old account keeps a balance its ledger no longer implies.
     */
    method PutTransaction(id: int, transaction: Transaction, now: Timestamp) returns (status: Status)
      requires context.Valid()
      modifies context`transactions, context`accounts
      ensures context.Valid()
      ensures id != transaction.id ==> status == BadRequest && unchanged(context)
      ensures id == transaction.id && FindTransaction(old(context.transactions), id).None? ==>
        status == NotFound && unchanged(context)
      ensures id == transaction.id && FindTransaction(old(context.transactions), id).Some? ==>
        var ledger := old(context.transactions)[FindTransaction(old(context.transactions), id).value := transaction];
        if Constraints(old(context.accounts), ledger) then
          && status == NoContent
          && context.transactions == ledger
          && |context.accounts| == |old(context.accounts)|
          && forall j :: 0 <= j < |context.accounts| ==>
               context.accounts[j] == Refreshed(old(context.accounts[j]), ledger, [transaction.accountId], now)
        else
          status == ServerError && unchanged(context)
      ensures (status == NoContent && FindTransaction(old(context.transactions), id).Some?
               && Reconciled(old(context.accounts), old(context.transactions))) ==>
        var original := old(context.transactions)[FindTransaction(old(context.transactions), id).value];
        && (original.accountId == transaction.accountId ==> Reconciled(context.accounts, context.transactions))
        && (original.accountId != transaction.accountId && Delta(original.kind, original.amount) != 0 ==>
              !Reconciled(context.accounts, context.transactions))
    {
      if id != transaction.id {
        return BadRequest;
      }
      var found := FindTransaction(context.transactions, id);
      if found.None? {
        return NotFound;
      }
      var k := found.value;
      var original := context.transactions[k];
      var ledger := context.transactions[k := transaction];
      if !Constraints(context.accounts, ledger) {
        return ServerError;
      }
      context.transactions := ledger;
      RecalculateAccountBalance(transaction.accountId, now);
      status := NoContent;

      var before, beforeLedger := old(context.accounts), old(context.transactions);
      if Reconciled(before, beforeLedger) {
        if original.accountId == transaction.accountId {
          forall j | 0 <= j < |before| && before[j].accountId !in [transaction.accountId]
            ensures Net(ledger, before[j].accountId) == Net(beforeLedger, before[j].accountId)
          {
            ReplacementMatchesRecompute(beforeLedger, k, transaction, before[j]);
          }
          RefreshKeepsReconciled(before, beforeLedger, ledger, [transaction.accountId], now, context.accounts);
        } else if Delta(original.kind, original.amount) != 0 {
          assert HasAccount(before, original.accountId);
          var j :| 0 <= j < |before| && before[j].accountId == original.accountId;
          MoveWithoutRecomputeLeavesStale(beforeLedger, k, transaction, before[j]);
          assert context.accounts[j] == before[j];
        }
      }
    }

    /** The `if`/`else if` after the PATCH save: recomputes the accounts `AccountsToRecalculate` names. */
    method RecalculateAfterPatch(updates: seq<Update>, original: Transaction, transaction: Transaction, now: Timestamp)
      requires context.Valid()
      modifies context`accounts
      ensures context.Valid()
      ensures |context.accounts| == |old(context.accounts)|
      ensures forall j :: 0 <= j < |context.accounts| ==>
        context.accounts[j]
        == Refreshed(old(context.accounts[j]), context.transactions, AccountsToRecalculate(updates, original, transaction), now)
    {
      ghost var ids := AccountsToRecalculate(updates, original, transaction);
      if ContainsKey(updates, "accountid") && original.accountId != transaction.accountId {
        RecalculateAccountBalance(original.accountId, now);
        RecalculateAccountBalance(transaction.accountId, now);
        forall j | 0 <= j < |context.accounts|
          ensures context.accounts[j] == Refreshed(old(context.accounts[j]), context.transactions, ids, now)
        {
          RefreshedInTurn(old(context.accounts[j]), context.transactions, original.accountId, transaction.accountId, now);
        }
      } else if ContainsKey(updates, "amount") || ContainsKey(updates, "type") {
        RecalculateAccountBalance(transaction.accountId, now);
      }
    }

    /**
     * PATCH api/transactions/{id}: the body is applied field by field, the entry saved,
     * and the accounts `AccountsToRecalculate` names are recomputed. A conversion that
     * throws, a required column left null, or a broken foreign key fails the request.
     * With lower-case keys every balance stays reconciled.
     */
    method PatchTransaction(id: int, updates: seq<Update>, now: Timestamp) returns (status: Status)
      requires context.Valid()
      modifies context`transactions, context`accounts
      ensures context.Valid()
      ensures FindTransaction(old(context.transactions), id).None? ==> status == NotFound && unchanged(context)
      ensures FindTransaction(old(context.transactions), id).Some? ==>
        var k := FindTransaction(old(context.transactions), id).value;
        var original := old(context.transactions)[k];
        match Patched(original, updates)
        case None => status == ServerError && unchanged(context)
        case Some(d) =>
          var ledger := old(context.transactions)[k := d.record];
          if d.nulled == {} && Constraints(old(context.accounts), ledger) then
            && status == NoContent
            && context.transactions == ledger
            && |context.accounts| == |old(context.accounts)|
            && forall j :: 0 <= j < |context.accounts| ==>
                 context.accounts[j]
                 == Refreshed(old(context.accounts[j]), ledger, AccountsToRecalculate(updates, original, d.record), now)
          else
            status == ServerError && unchanged(context)
      ensures Reconciled(old(context.accounts), old(context.transactions)) && LowerCaseKeys(updates) ==>
        Reconciled(context.accounts, context.transactions)
    {
      var found := FindTransaction(context.transactions, id);
      if found.None? {
        return NotFound;
      }
      var k := found.value;
      var original := context.transactions[k];
      var patched := ApplyPatch(original, updates);
      if patched.None? {
        return ServerError;
      }
      var transaction := patched.value.record;
      var ledger := context.transactions[k := transaction];
      if patched.value.nulled != {} || !Constraints(context.accounts, ledger) {
        return ServerError;
      }
      assert transaction.id == original.id by {
        PatchChangesOnlyNamedFields(original, updates);
      }
      context.transactions := ledger;
      ghost var before := context.accounts;
      RecalculateAfterPatch(updates, original, transaction, now);
      status := NoContent;

      if Reconciled(before, old(context.transactions)) && LowerCaseKeys(updates) {
        LowerCasePatchKeepsReconciled(before, old(context.transactions), k, updates, now, context.accounts);
      }
    }

    /**
     * DELETE api/transactions/{id}: the entry is removed and its account recomputed, which
     * keeps every balance reconciled; deleting a WITHDRAWAL of X gives its account X back.
     */
    method DeleteTransaction(id: int, now: Timestamp) returns (status: Status)
      requires context.Valid()
      modifies context`transactions, context`accounts
      ensures context.Valid()
      ensures FindTransaction(old(context.transactions), id).None? ==> status == NotFound && unchanged(context)
      ensures FindTransaction(old(context.transactions), id).Some? ==>
        var k := FindTransaction(old(context.transactions), id).value;
        && status == NoContent
        && context.transactions == RemoveAt(old(context.transactions), k)
        && |context.accounts| == |old(context.accounts)|
        && forall j :: 0 <= j < |context.accounts| ==>
             context.accounts[j]
             == Refreshed(old(context.accounts[j]), context.transactions, [old(context.transactions)[k].accountId], now)
      ensures Reconciled(old(context.accounts), old(context.transactions)) ==>
        Reconciled(context.accounts, context.transactions)
      ensures (FindTransaction(old(context.transactions), id).Some?
               && Reconciled(old(context.accounts), old(context.transactions))) ==>
        var deleted := old(context.transactions)[FindTransaction(old(context.transactions), id).value];
        deleted.kind == Withdrawal ==>
          forall j :: 0 <= j < |context.accounts| && context.accounts[j].accountId == deleted.accountId ==>
            context.accounts[j].currentBalance == old(context.accounts[j].currentBalance) + deleted.amount
    {
      var found := FindTransaction(context.transactions, id);
      if found.None? {
        return NotFound;
      }
      var k := found.value;
      var accountId := context.transactions[k].accountId;
      var ledger := RemoveAt(context.transactions, k);
      assert ForeignKeysHold(context.accounts, ledger) by {
        forall i | 0 <= i < |ledger|
          ensures HasAccount(context.accounts, ledger[i].accountId)
        {
          if i >= k {
            assert ledger[i] == context.transactions[i + 1];
          }
        }
      }
      context.transactions := ledger;
      RecalculateAccountBalance(accountId, now);
      status := NoContent;

      var before, beforeLedger := old(context.accounts), old(context.transactions);
      if Reconciled(before, beforeLedger) {
        forall j | 0 <= j < |before|
          ensures Recomputed(before[j], ledger)
               == before[j].currentBalance - Contribution(beforeLedger[k], before[j].accountId)
        {
          RemovalMatchesRecompute(beforeLedger, k, before[j]);
        }
        RefreshKeepsReconciled(before, beforeLedger, ledger, [accountId], now, context.accounts);
      }
    }
  }
}
