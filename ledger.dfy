/**
 * Account-balance reconciliation (Controllers/TransactionsController.cs): the two
 * ways the controller keeps `CurrentBalance` in step with the ledger —
 * the incremental update `UpdateAccountBalance` used on insert, and the full
 * recomputation `RecalculateAccountBalance` used on update and delete — and the
 * proof that they agree.
 */
module Ledger {

  import opened Models
  import opened Data

  const Deposit := "DEPOSIT"
  const Withdrawal := "WITHDRAWAL"

  /**
   * `Transactions.Where(t => t.AccountId == accountId && t.Type == kind).Sum(t => t.Amount)`,
   * 0 when nothing matches. Account ids and types are compared ordinally, as under a
   * case-sensitive collation: "deposit" is not "DEPOSIT".
   */
  function SumOf(ledger: seq<Transaction>, accountId: string, kind: string): Cents
    decreases |ledger|
  {
    if ledger == [] then 0
    else
      (if ledger[0].accountId == accountId && ledger[0].kind == kind then ledger[0].amount else 0)
      + SumOf(ledger[1..], accountId, kind)
  }

  /** Deposits minus withdrawals of `accountId`. */
  function Net(ledger: seq<Transaction>, accountId: string): Cents {
    SumOf(ledger, accountId, Deposit) - SumOf(ledger, accountId, Withdrawal)
  }

  /** The balance `RecalculateAccountBalance` assigns: `InitialDeposit + deposits - withdrawals`. */
  function Recomputed(a: Account, ledger: seq<Transaction>): Cents {
    a.initialDeposit + Net(ledger, a.accountId)
  }

  /** The change `UpdateAccountBalance` applies: `+= amount`, `-= amount`, or nothing for any other type. */
  function Delta(kind: string, amount: Cents): Cents {
    if kind == Deposit then amount else if kind == Withdrawal then -amount else 0
  }

  /** What one entry adds to the balance of `accountId`. */
  function Contribution(t: Transaction, accountId: string): Cents {
    if t.accountId == accountId then Delta(t.kind, t.amount) else 0
  }

  /** The invariant: every cached balance is the one the ledger implies. */
  predicate Reconciled(accounts: seq<Account>, ledger: seq<Transaction>) {
    forall j :: 0 <= j < |accounts| ==> accounts[j].currentBalance == Recomputed(accounts[j], ledger)
  }

  /** `UpdateAccountBalance(accountId, kind, amount)` as it acts on one account row. */
  function Incremented(a: Account, accountId: string, kind: string, amount: Cents, now: Timestamp): Account {
    if a.accountId == accountId
    then a.(currentBalance := a.currentBalance + Delta(kind, amount), updatedAt := now)
    else a
  }

  /** `RecalculateAccountBalance(id)` for each `id` of `ids`, as it acts on one account row. */
  function Refreshed(a: Account, ledger: seq<Transaction>, ids: seq<string>, now: Timestamp): Account {
    if a.accountId in ids
    then a.(currentBalance := Recomputed(a, ledger), updatedAt := now)
    else a
  }

  /** Recomputing `x` and then `y` is recomputing both. */
  lemma RefreshedInTurn(a: Account, ledger: seq<Transaction>, x: string, y: string, now: Timestamp)
    ensures Refreshed(Refreshed(a, ledger, [x], now), ledger, [y], now) == Refreshed(a, ledger, [x, y], now)
  {
  }

  lemma {:induction false} SumOfConcat(a: seq<Transaction>, b: seq<Transaction>, accountId: string, kind: string)
    decreases |a|
    ensures SumOf(a + b, accountId, kind) == SumOf(a, accountId, kind) + SumOf(b, accountId, kind)
  {
    if a != [] {
      assert (a + b)[0] == a[0];
      assert (a + b)[1..] == a[1..] + b;
      SumOfConcat(a[1..], b, accountId, kind);
    } else {
      assert a + b == b;
    }
  }

  lemma NetOfConcat(a: seq<Transaction>, b: seq<Transaction>, accountId: string)
    ensures Net(a + b, accountId) == Net(a, accountId) + Net(b, accountId)
  {
    SumOfConcat(a, b, accountId, Deposit);
    SumOfConcat(a, b, accountId, Withdrawal);
  }

  /** A single entry's deposits minus withdrawals are its contribution. */
  lemma NetOfOne(t: Transaction, accountId: string)
    ensures Net([t], accountId) == Contribution(t, accountId)
  {
    assert [t][1..] == [];
    assert SumOf([t], accountId, Deposit) == if t.accountId == accountId && t.kind == Deposit then t.amount else 0;
    assert SumOf([t], accountId, Withdrawal) == if t.accountId == accountId && t.kind == Withdrawal then t.amount else 0;
    assert Deposit != Withdrawal by { assert |Deposit| != |Withdrawal|; }
  }

  /**
   * The incremental path agrees with the recomputation: appending `t` moves every
   * account's recomputed balance by exactly what `UpdateAccountBalance` adds, whatever `t.kind` is.
   */
  lemma IncrementalMatchesRecompute(ledger: seq<Transaction>, t: Transaction, a: Account)
    ensures Recomputed(a, ledger + [t]) == Recomputed(a, ledger) + Contribution(t, a.accountId)
  {
    NetOfConcat(ledger, [t], a.accountId);
    NetOfOne(t, a.accountId);
  }

  /** Removing entry `k` takes its contribution back out. */
  lemma RemovalMatchesRecompute(ledger: seq<Transaction>, k: nat, a: Account)
    requires k < |ledger|
    ensures Recomputed(a, RemoveAt(ledger, k)) == Recomputed(a, ledger) - Contribution(ledger[k], a.accountId)
  {
    assert ledger == ledger[..k] + [ledger[k]] + ledger[k + 1..];
    NetOfConcat(ledger[..k] + [ledger[k]], ledger[k + 1..], a.accountId);
    NetOfConcat(ledger[..k], [ledger[k]], a.accountId);
    NetOfConcat(ledger[..k], ledger[k + 1..], a.accountId);
    NetOfOne(ledger[k], a.accountId);
  }

  /** Replacing entry `k` by `t` swaps one contribution for the other. */
  lemma ReplacementMatchesRecompute(ledger: seq<Transaction>, k: nat, t: Transaction, a: Account)
    requires k < |ledger|
    ensures Recomputed(a, ledger[k := t])
         == Recomputed(a, ledger) - Contribution(ledger[k], a.accountId) + Contribution(t, a.accountId)
  {
    var replaced := ledger[k := t];
    assert ledger == ledger[..k] + [ledger[k]] + ledger[k + 1..];
    assert replaced == ledger[..k] + [t] + ledger[k + 1..];
    NetOfConcat(ledger[..k] + [ledger[k]], ledger[k + 1..], a.accountId);
    NetOfConcat(ledger[..k], [ledger[k]], a.accountId);
    NetOfConcat(ledger[..k] + [t], ledger[k + 1..], a.accountId);
    NetOfConcat(ledger[..k], [t], a.accountId);
    NetOfOne(ledger[k], a.accountId);
    NetOfOne(t, a.accountId);
  }

  /** An entry whose type is neither "DEPOSIT" nor "WITHDRAWAL" (say "deposit") changes no balance. */
  lemma OtherTypesCountForNothing(ledger: seq<Transaction>, t: Transaction, a: Account)
    requires t.kind != Deposit && t.kind != Withdrawal
    ensures Recomputed(a, ledger + [t]) == Recomputed(a, ledger)
  {
    IncrementalMatchesRecompute(ledger, t, a);
  }

  /** Incrementing every row for a new entry keeps the invariant (the POST path). */
  lemma IncrementKeepsReconciled(
    accounts: seq<Account>, ledger: seq<Transaction>, t: Transaction, now: Timestamp, after: seq<Account>)
    requires Reconciled(accounts, ledger)
    requires |after| == |accounts|
    requires forall j :: 0 <= j < |accounts| ==> after[j] == Incremented(accounts[j], t.accountId, t.kind, t.amount, now)
    ensures Reconciled(after, ledger + [t])
  {
    forall j | 0 <= j < |after|
      ensures after[j].currentBalance == Recomputed(after[j], ledger + [t])
    {
      IncrementalMatchesRecompute(ledger, t, accounts[j]);
    }
  }

  /**
   * Recomputing the accounts `ids` after a ledger change keeps the invariant,
   * provided the change moved no other account's ledger-implied balance.
   */
  lemma RefreshKeepsReconciled(
    accounts: seq<Account>, ledger: seq<Transaction>, ledger': seq<Transaction>,
    ids: seq<string>, now: Timestamp, after: seq<Account>)
    requires Reconciled(accounts, ledger)
    requires forall j :: 0 <= j < |accounts| && accounts[j].accountId !in ids ==>
               Net(ledger', accounts[j].accountId) == Net(ledger, accounts[j].accountId)
    requires |after| == |accounts|
    requires forall j :: 0 <= j < |accounts| ==> after[j] == Refreshed(accounts[j], ledger', ids, now)
    ensures Reconciled(after, ledger')
  {
  }

  /** Recomputing is idempotent: a refreshed row is reconciled, and refreshing it again changes only `UpdatedAt`. */
  lemma RecalculationIsIdempotent(a: Account, ledger: seq<Transaction>, ids: seq<string>, now: Timestamp, later: Timestamp)
    requires a.accountId in ids
    ensures Refreshed(a, ledger, ids, now).currentBalance == Recomputed(Refreshed(a, ledger, ids, now), ledger)
    ensures Refreshed(Refreshed(a, ledger, ids, now), ledger, ids, later) == Refreshed(a, ledger, ids, later)
  {
  }

  /** Deleting a WITHDRAWAL of X from a reconciled account yields balance + X. */
  lemma DeletingWithdrawalRestoresIt(a: Account, ledger: seq<Transaction>, k: nat)
    requires k < |ledger| && ledger[k].accountId == a.accountId && ledger[k].kind == Withdrawal
    requires a.currentBalance == Recomputed(a, ledger)
    ensures Recomputed(a, RemoveAt(ledger, k)) == a.currentBalance + ledger[k].amount
  {
    RemovalMatchesRecompute(ledger, k, a);
  }

  /** Moving a DEPOSIT of X from account A to account B, both reconciled: A loses X, B gains X. */
  lemma CrossAccountMove(ledger: seq<Transaction>, k: nat, from: Account, to: Account)
    requires k < |ledger| && ledger[k].accountId == from.accountId && ledger[k].kind == Deposit
    requires from.accountId != to.accountId
    requires from.currentBalance == Recomputed(from, ledger) && to.currentBalance == Recomputed(to, ledger)
    ensures Recomputed(from, ledger[k := ledger[k].(accountId := to.accountId)]) == from.currentBalance - ledger[k].amount
    ensures Recomputed(to, ledger[k := ledger[k].(accountId := to.accountId)]) == to.currentBalance + ledger[k].amount
  {
    ReplacementMatchesRecompute(ledger, k, ledger[k].(accountId := to.accountId), from);
    ReplacementMatchesRecompute(ledger, k, ledger[k].(accountId := to.accountId), to);
  }

  /**
   * Replacing an entry by one of another account, recomputing only the new account:
   * the old account's cached balance no longer matches its ledger whenever the entry counted.
   */
  lemma MoveWithoutRecomputeLeavesStale(ledger: seq<Transaction>, k: nat, t: Transaction, a: Account)
    requires k < |ledger| && ledger[k].accountId == a.accountId && t.accountId != a.accountId
    requires Delta(ledger[k].kind, ledger[k].amount) != 0
    requires a.currentBalance == Recomputed(a, ledger)
    ensures a.currentBalance != Recomputed(a, ledger[k := t])
  {
    ReplacementMatchesRecompute(ledger, k, t, a);
  }
}
