/**
 * A worked example through the controllers: account AC1 opened with 1000, a DEPOSIT
 * of 200, a WITHDRAWAL of 50, a PATCH of the withdrawal's amount to 100, and the
 * deletion of the deposit.
 */
module Scenario {

  import opened Wrappers
  import opened Models
  import opened Data
  import opened Ledger
  import Accounts
  import Transactions

  function Amount(x: Cents): Value {
    Value(None, Some(x), None, None, None)
  }

  /** AC1 as stored: identity 1, 1000 deposited and held. */
  function Opened(): Account {
    Account(1, "AC1", "Main", 1000, 1000, "USD", None, 0, true, 0, 0)
  }

  function DepositOf200(): Transaction { Transaction(1, "AC1", Deposit, 200, None, 1, 1) }
  function WithdrawalOf50(): Transaction { Transaction(2, "AC1", Withdrawal, 50, None, 2, 2) }

  /** The balance of AC1 after each step: 1000, 1200, 1150, 1100, 900. */
  method OpenDepositWithdrawPatchDelete() returns (balances: seq<Cents>)
    ensures balances == [1000, 1200, 1150, 1100, 900]
  {
    var context := Open();
    balances := [context.accounts[0].currentBalance];
    PostDeposit(context);
    balances := balances + [context.accounts[0].currentBalance];
    PostWithdrawal(context);
    balances := balances + [context.accounts[0].currentBalance];
    PatchWithdrawal(context);
    balances := balances + [context.accounts[0].currentBalance];
    DeleteDeposit(context);
    balances := balances + [context.accounts[0].currentBalance];
  }

  method Open() returns (context: AppDbContext)
    ensures fresh(context) && context.Valid()
    ensures context.accounts == [Opened()] && context.transactions == [] && context.transactionSeed == 1
  {
    context := new AppDbContext();
    var accounts := new Accounts.AccountsController(context);
    var status := accounts.PostAccount(Opened().(id := 0));
  }

  method PostDeposit(context: AppDbContext)
    requires context.Valid()
    requires context.accounts == [Opened()] && context.transactions == [] && context.transactionSeed == 1
    modifies context
    ensures context.Valid()
    ensures context.accounts == [Opened().(currentBalance := 1200, updatedAt := 1)]
    ensures context.transactions == [DepositOf200()] && context.transactionSeed == 2
  {
    var transactions := new Transactions.TransactionsController(context);
    assert HasAccount(context.accounts, "AC1") by { assert context.accounts[0].accountId == "AC1"; }
    var status := transactions.PostTransaction(DepositOf200().(id := 0), 1);
    assert context.accounts[0] == Incremented(Opened(), "AC1", Deposit, 200, 1);
  }

  method PostWithdrawal(context: AppDbContext)
    requires context.Valid()
    requires context.accounts == [Opened().(currentBalance := 1200, updatedAt := 1)]
    requires context.transactions == [DepositOf200()] && context.transactionSeed == 2
    modifies context
    ensures context.Valid()
    ensures context.accounts == [Opened().(currentBalance := 1150, updatedAt := 2)]
    ensures context.transactions == [DepositOf200(), WithdrawalOf50()]
  {
    var transactions := new Transactions.TransactionsController(context);
    assert HasAccount(context.accounts, "AC1") by { assert context.accounts[0].accountId == "AC1"; }
    var status := transactions.PostTransaction(WithdrawalOf50().(id := 0), 2);
    assert Deposit != Withdrawal by { assert |Deposit| != |Withdrawal|; }
    assert context.accounts[0] == Incremented(Opened().(currentBalance := 1200, updatedAt := 1), "AC1", Withdrawal, 50, 2);
  }

  method PatchWithdrawal(context: AppDbContext)
    requires context.Valid()
    requires context.accounts == [Opened().(currentBalance := 1150, updatedAt := 2)]
    requires context.transactions == [DepositOf200(), WithdrawalOf50()]
    modifies context
    ensures context.Valid()
    ensures context.accounts == [Opened().(currentBalance := 1100, updatedAt := 3)]
    ensures context.transactions == [DepositOf200(), WithdrawalOf50().(amount := 100)]
  {
    var transactions := new Transactions.TransactionsController(context);
    var w := WithdrawalOf50();
    PatchOfAmount(w, 100);
    LedgerBalances(Opened(), DepositOf200(), w.(amount := 100));
    assert context.transactions[0].id == 1 && context.transactions[1].id == 2;
    assert FindTransaction(context.transactions, 2) == Some(1);
    var ledger := [DepositOf200(), w.(amount := 100)];
    assert context.transactions[1 := w.(amount := 100)] == ledger;
    assert Constraints(context.accounts, ledger) by {
      assert HasAccount(context.accounts, "AC1") by { assert context.accounts[0].accountId == "AC1"; }
    }
    var status := transactions.PatchTransaction(2, [Update("amount", Amount(100))], 3);
    assert context.transactions == ledger;
    assert context.accounts[0]
        == Refreshed(Opened().(currentBalance := 1150, updatedAt := 2), context.transactions, ["AC1"], 3);
  }

  method DeleteDeposit(context: AppDbContext)
    requires context.Valid()
    requires context.accounts == [Opened().(currentBalance := 1100, updatedAt := 3)]
    requires context.transactions == [DepositOf200(), WithdrawalOf50().(amount := 100)]
    modifies context
    ensures context.accounts == [Opened().(currentBalance := 900, updatedAt := 4)]
  {
    var transactions := new Transactions.TransactionsController(context);
    var w := WithdrawalOf50().(amount := 100);
    LedgerBalances(Opened(), DepositOf200(), w);
    assert context.transactions[0].id == 1;
    assert FindTransaction(context.transactions, 1) == Some(0);
    var status := transactions.DeleteTransaction(1, 4);
    assert context.transactions == [w];
    assert context.accounts[0] == Refreshed(Opened().(currentBalance := 1100, updatedAt := 3), [w], ["AC1"], 4);
  }

  /** What the ledger implies for AC1 before and after the deposit is deleted. */
  lemma LedgerBalances(a: Account, d: Transaction, w: Transaction)
    requires a.accountId == d.accountId == w.accountId && a.initialDeposit == 1000
    requires d.kind == Deposit && d.amount == 200 && w.kind == Withdrawal && w.amount == 100
    ensures Recomputed(a, [d, w]) == 1100
    ensures Recomputed(a, [w]) == 900
  {
    assert Deposit != Withdrawal by { assert |Deposit| != |Withdrawal|; }
    NetOfConcat([d], [w], a.accountId);
    NetOfOne(d, a.accountId);
    NetOfOne(w, a.accountId);
    assert [d] + [w] == [d, w];
  }

  /** The lower-case key "amount" sets the amount and names the entry's account for recomputation. */
  lemma PatchOfAmount(t: Transaction, x: Cents)
    ensures Transactions.Patched(t, [Update("amount", Amount(x))]) == Some(Draft(t.(amount := x), {}))
    ensures Transactions.AccountsToRecalculate([Update("amount", Amount(x))], t, t.(amount := x)) == [t.accountId]
  {
    var us := [Update("amount", Amount(x))];
    var d := Draft(t.(amount := x), {});
    assert Text.ToLower("amount") == "amount";
    assert Transactions.PatchStep(Draft(t, {}), us[0]) == Some(d);
    assert us[1..] == [];
    assert Transactions.PatchFrom(d, us[1..]) == Some(d);
    assert ContainsKey(us, "amount") by { assert us[0].key == "amount"; }
    assert !ContainsKey(us, "accountid") by { assert |us[0].key| != |"accountid"|; }
  }
}
