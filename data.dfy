/**
 * The store behind the controllers (Data/AppDbContext.cs): three tables, their
 * identity columns, and the constraints the database enforces when a save commits —
 * the unique business key `AccountId`, and the foreign key from
 * `Transaction.AccountId` to `Account.AccountId` with `DeleteBehavior.Restrict`.
 */
module Data {

  import opened Wrappers
  import opened Models
  import Query

  predicate UniqueAccountIds(accounts: seq<Account>) {
    forall i, j :: 0 <= i < j < |accounts| ==> accounts[i].id != accounts[j].id
  }

  predicate UniqueTransactionIds(transactions: seq<Transaction>) {
    forall i, j :: 0 <= i < j < |transactions| ==> transactions[i].id != transactions[j].id
  }

  predicate UniquePerformanceIds(performance: seq<Performance>) {
    forall i, j :: 0 <= i < j < |performance| ==> performance[i].id != performance[j].id
  }

  /** The unique index on `AccountId`. */
  predicate UniqueBusinessKeys(accounts: seq<Account>) {
    forall i, j :: 0 <= i < j < |accounts| ==> accounts[i].accountId != accounts[j].accountId
  }

  predicate HasAccount(accounts: seq<Account>, accountId: string) {
    exists j :: 0 <= j < |accounts| && accounts[j].accountId == accountId
  }

  predicate Referenced(transactions: seq<Transaction>, accountId: string) {
    exists i :: 0 <= i < |transactions| && transactions[i].accountId == accountId
  }

  /** Every ledger entry names an existing account. */
  predicate ForeignKeysHold(accounts: seq<Account>, transactions: seq<Transaction>) {
    forall i :: 0 <= i < |transactions| ==> HasAccount(accounts, transactions[i].accountId)
  }

  /** What the database checks when a save commits; a save that breaks it fails and changes nothing. */
  predicate Constraints(accounts: seq<Account>, transactions: seq<Transaction>) {
    UniqueBusinessKeys(accounts) && ForeignKeysHold(accounts, transactions)
  }

  /** `Accounts.FindAsync(id)`. */
  function FindAccount(accounts: seq<Account>, id: int): (r: Option<nat>)
    ensures r.Some? ==> r.value < |accounts| && accounts[r.value].id == id
    ensures r.None? ==> forall j :: 0 <= j < |accounts| ==> accounts[j].id != id
  {
    Query.IndexWhere(accounts, (a: Account) => a.id == id)
  }

  /** `Accounts.FirstOrDefaultAsync(a => a.AccountId == accountId)`. */
  function FindAccountByKey(accounts: seq<Account>, accountId: string): (r: Option<nat>)
    ensures r.Some? ==> r.value < |accounts| && accounts[r.value].accountId == accountId
    ensures forall j :: 0 <= j < |accounts| && (r.None? || j < r.value) ==> accounts[j].accountId != accountId
  {
    Query.IndexWhere(accounts, (a: Account) => a.accountId == accountId)
  }

  /** `Transactions.FindAsync(id)`. */
  function FindTransaction(transactions: seq<Transaction>, id: int): (r: Option<nat>)
    ensures r.Some? ==> r.value < |transactions| && transactions[r.value].id == id
    ensures r.None? ==> forall j :: 0 <= j < |transactions| ==> transactions[j].id != id
  {
    Query.IndexWhere(transactions, (t: Transaction) => t.id == id)
  }

  /** `Performance.FindAsync(id)`. */
  function FindPerformance(performance: seq<Performance>, id: int): (r: Option<nat>)
    ensures r.Some? ==> r.value < |performance| && performance[r.value].id == id
    ensures r.None? ==> forall j :: 0 <= j < |performance| ==> performance[j].id != id
  {
    Query.IndexWhere(performance, (p: Performance) => p.id == id)
  }

  /** Removes the row at `k`, keeping the order of the others. */
  function RemoveAt<T>(s: seq<T>, k: nat): (r: seq<T>)
    requires k < |s|
    ensures |r| == |s| - 1
    ensures forall j :: 0 <= j < k ==> r[j] == s[j]
    ensures forall j :: k <= j < |r| ==> r[j] == s[j + 1]
  {
    s[..k] + s[k + 1..]
  }

  /** Rewriting account rows without touching their keys keeps every constraint. */
  lemma KeysUnchangedKeepConstraints(before: seq<Account>, after: seq<Account>, transactions: seq<Transaction>)
    requires |after| == |before|
    requires forall j :: 0 <= j < |before| ==> after[j].id == before[j].id && after[j].accountId == before[j].accountId
    requires UniqueAccountIds(before) && Constraints(before, transactions)
    ensures UniqueAccountIds(after) && Constraints(after, transactions)
  {
    forall i | 0 <= i < |transactions|
      ensures HasAccount(after, transactions[i].accountId)
    {
      var j :| 0 <= j < |before| && before[j].accountId == transactions[i].accountId;
      assert after[j].accountId == transactions[i].accountId;
    }
  }

  /** A new entry keeps the foreign key exactly when it names an existing account. */
  lemma AppendedEntryNeedsItsAccount(accounts: seq<Account>, transactions: seq<Transaction>, t: Transaction)
    requires ForeignKeysHold(accounts, transactions)
    ensures ForeignKeysHold(accounts, transactions + [t]) <==> HasAccount(accounts, t.accountId)
  {
    var ledger := transactions + [t];
    assert ledger[|ledger| - 1] == t;
    assert forall i :: 0 <= i < |transactions| ==> ledger[i] == transactions[i];
  }

  class AppDbContext {
    var accounts: seq<Account>
    var transactions: seq<Transaction>
    var performance: seq<Performance>
    // the next value of each identity column
    var accountSeed: int
    var transactionSeed: int
    var performanceSeed: int

    predicate Valid()
      reads this
    {
      && UniqueAccountIds(accounts)
      && UniqueTransactionIds(transactions)
      && UniquePerformanceIds(performance)
      && (forall i :: 0 <= i < |accounts| ==> accounts[i].id < accountSeed)
      && (forall i :: 0 <= i < |transactions| ==> transactions[i].id < transactionSeed)
      && (forall i :: 0 <= i < |performance| ==> performance[i].id < performanceSeed)
      && Constraints(accounts, transactions)
    }

    constructor ()
      ensures Valid()
      ensures accounts == [] && transactions == [] && performance == []
      ensures accountSeed == 1 && transactionSeed == 1 && performanceSeed == 1
    {
      accounts, transactions, performance := [], [], [];
      accountSeed, transactionSeed, performanceSeed := 1, 1, 1;
    }
  }
}
