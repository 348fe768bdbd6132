# FxInvestmentApi — a verified model of account-balance reconciliation

FxInvestmentApi is a REST API over three tables: trading accounts, ledger
transactions and weekly performance snapshots. Its one piece of real domain logic
keeps each account's cached `CurrentBalance` in step with the ledger. Every
account should satisfy

    CurrentBalance == InitialDeposit + Σ amount of its "DEPOSIT" entries − Σ amount of its "WITHDRAWAL" entries

The transactions controller maintains this in two ways:

- **incrementally** on POST (`UpdateAccountBalance`);
- **by recomputation** on PUT, PATCH and DELETE (`RecalculateAccountBalance`).

This project models those controllers in Dafny and proves where the invariant
(`Ledger.Reconciled`) holds and where it breaks.

It holds on:

- POST, whatever the type string;
- DELETE;
- PATCH whose keys are written in lower case.

It is shown to break on:

- a PUT that moves a counted entry to another account (only the new account is recomputed);
- a PATCH whose keys are mixed case, such as `"Amount"` or `"AccountId"`: the field changes, but the recompute decision tests the exact keys, so nothing is recomputed;
- an account PATCH of `currentbalance`, which overwrites the cached balance directly.

The model also covers:

- the case-insensitive PATCH dispatch of all three controllers, including its `UpdatedAt` stamp;
- the PUT/POST/DELETE outcomes under the store's constraints;
- the listing queries;
- the two group-by summaries.

How things are represented:

- Amounts are `decimal(15,2)` columns, modelled as whole hundredths (`int`).
- Instants are opaque `int`s.
- The clock (`DateTime.UtcNow`) is a `now` parameter.
- The `DbContext` is a class `Data.AppDbContext` with one `seq` per table and one identity seed per table.
- Each controller is a class holding it, as the source does.
- A save commits only when the new state keeps the unique `AccountId` index and the foreign key from `Transaction.AccountId` to `Account.AccountId`. Otherwise the request ends in `ServerError` and nothing changes.

Two details of the code decide where the invariant breaks:

- A transaction PATCH recomputes only when the body holds the exact lower-case keys `amount`, `type` or `accountid` (Controllers/TransactionsController.cs:197-202), although the field switch lowers every key (:172). A body with mixed-case keys therefore changes the entry and leaves the balances stale.
- A transaction PUT recomputes only the body's account (Controllers/TransactionsController.cs:139), so an entry moved to another account leaves the old account's balance stale.

Modules:

- `wrappers.dfy`: `Option`.
- `text.dfy`: ASCII `ToLower`/`ToUpper` and ordinal string order.
- `query.dfy`: `FirstOrDefault`, `Where`, `OrderBy`.
- `grouping.dfy`: `GroupBy` with `Count`/`Sum`/`Max`, and the partition lemma.
- `models.dfy`: the three records and the PATCH body.
- `data.dfy`: the store and its constraints.
- `ledger.dfy`: the two balance strategies and their agreement.
- `transactions.dfy`, `accounts.dfy`, `performance.dfy`: the three controllers.
- `scenario.dfy`: a worked example through the controllers (1000 → 1200 → 1150 → 1100 → 900).

## Model

| member | source | states |
|---|---|---|
| Text.ToLower | Controllers/TransactionsController.cs:172 | `String.ToLower` on ASCII: same length, each character lowered, nothing else moves |
| Text.ToUpper | Controllers/TransactionsController.cs:59 | `String.ToUpper` on ASCII: same length, each character raised |
| Text.ToLowerIdempotent | Controllers/PerformanceController.cs:135 | lowering a key twice is lowering it once, which is what makes the switch case-insensitive |
| Text.OrdinalLeTotal | Controllers/AccountsController.cs:60 | the ordinal string order used by `OrderBy` compares every pair |
| Text.OrdinalLeTransitive | Controllers/AccountsController.cs:60 | the ordinal string order is transitive |
| Query.IndexWhere | Controllers/TransactionsController.cs:251 | `FirstOrDefault(p)`: the index found satisfies `p` and no earlier element does; None only when none does |
| Query.Filter | Controllers/TransactionsController.cs:47 | `Where(p)`: each element kept exactly as often as it occurs when `p` holds, dropped otherwise |
| Query.SortBy | Controllers/TransactionsController.cs:24 | `OrderBy`: the result is sorted by the key order and is a permutation of the input |
| Grouping.Keys | Controllers/AccountsController.cs:69 | the group keys of `GroupBy`: distinct, every element's key present, no key without an element |
| Grouping.MaxWhere | Controllers/PerformanceController.cs:76 | `Max` over a non-empty group: attained by a member of the group and no member exceeds it |
| Grouping.GroupSumsAddUp | Controllers/AccountsController.cs:68-85 | distinct groups covering every element have sums that add up to the total |
| Grouping.GroupsPartition | Controllers/AccountsController.cs:68-85 | the groups of `GroupBy` partition the input: per-group sums add up to the overall sum |
| Models.Selected | Controllers/TransactionsController.cs:172 | the fields the body's keys select once lowered are exactly the fields it mentions |
| Data.FindAccount | Controllers/AccountsController.cs:134 | `FindAsync(id)` on accounts: the row found has that id; None only when no row has it |
| Data.FindAccountByKey | Controllers/TransactionsController.cs:251 | `FirstOrDefault(a => a.AccountId == accountId)`: the first row with that business key |
| Data.FindTransaction | Controllers/TransactionsController.cs:227 | `FindAsync(id)` on the ledger |
| Data.FindPerformance | Controllers/PerformanceController.cs:127 | `FindAsync(id)` on the performance table |
| Data.RemoveAt | Controllers/TransactionsController.cs:235 | `Remove`: one row fewer, the others in order |
| Data.KeysUnchangedKeepConstraints | Data/AppDbContext.cs:199-203 | rewriting account rows without touching `Id` or `AccountId` keeps the unique index and the foreign key |
| Data.AppendedEntryNeedsItsAccount | Data/AppDbContext.cs:199-203 | a new ledger entry keeps the foreign key exactly when it names an existing account |
| Data.AppDbContext.constructor | Data/AppDbContext.cs:12-14 | an empty store satisfies every constraint and its identities start at 1 |
| Ledger.RefreshedInTurn | Controllers/TransactionsController.cs:199-200 | recomputing one account and then another is recomputing both |
| Ledger.SumOfConcat | Controllers/TransactionsController.cs:273-279 | the per-type sum over a concatenated ledger is the sum of the parts |
| Ledger.NetOfConcat | Controllers/TransactionsController.cs:273-281 | deposits minus withdrawals over a concatenated ledger is the sum of the parts |
| Ledger.NetOfOne | Controllers/TransactionsController.cs:254-261 | one entry's deposits minus withdrawals is exactly the delta the incremental path applies |
| Ledger.IncrementalMatchesRecompute | Controllers/TransactionsController.cs:249-286 | appending an entry moves every account's recomputed balance by exactly the incremental delta, whatever the type string, with type and `AccountId` compared ordinally (a case-sensitive collation) |
| Ledger.RemovalMatchesRecompute | Controllers/TransactionsController.cs:235-239 | removing an entry takes its contribution back out of every account |
| Ledger.ReplacementMatchesRecompute | Controllers/TransactionsController.cs:132-139 | replacing an entry swaps its old contribution for the new one |
| Ledger.OtherTypesCountForNothing | Controllers/TransactionsController.cs:273-279 | an entry whose type is neither "DEPOSIT" nor "WITHDRAWAL" (e.g. "deposit") changes no recomputed balance, with the store comparing types ordinally (a case-sensitive collation) |
| Ledger.IncrementKeepsReconciled | Controllers/TransactionsController.cs:105-109 | incrementing every row for a new entry keeps a reconciled store reconciled |
| Ledger.RefreshKeepsReconciled | Controllers/TransactionsController.cs:268-286 | recomputing the named accounts keeps the store reconciled when the change moved no other account's ledger total |
| Ledger.RecalculationIsIdempotent | Controllers/TransactionsController.cs:268-285 | a recomputed row is reconciled; recomputing it again changes only `UpdatedAt` |
| Ledger.DeletingWithdrawalRestoresIt | Controllers/TransactionsController.cs:225-239 | deleting a WITHDRAWAL of X from a reconciled account yields balance + X |
| Ledger.CrossAccountMove | Controllers/TransactionsController.cs:196-201 | moving a DEPOSIT of X from A to B: A's ledger total drops by X, B's rises by X |
| Ledger.MoveWithoutRecomputeLeavesStale | Controllers/TransactionsController.cs:132-139 | replacing a counted entry by one of another account leaves the old account's cached balance wrong |
| Transactions.LaterFirstIsTotalPreorder | Controllers/TransactionsController.cs:24 | descending `TransactionDate` is a total preorder |
| Transactions.GetTransactions | Controllers/TransactionsController.cs:21-26 | every entry, each once, latest first |
| Transactions.GetTransactionsByAccount | Controllers/TransactionsController.cs:44-52 | exactly the entries with that `AccountId`, latest first |
| Transactions.GetTransactionsByType | Controllers/TransactionsController.cs:56-64 | exactly the entries whose type equals the given one up to case, latest first |
| Transactions.GetTransactionsByDateRange | Controllers/TransactionsController.cs:68-78 | exactly the entries dated within both bounds inclusive, latest first |
| Transactions.GetTransactionSummary | Controllers/TransactionsController.cs:82-99 | the summary names the account, and its net amount is deposits minus withdrawals |
| Transactions.SummaryMatchesBalance | Controllers/TransactionsController.cs:82-99 | on a reconciled store the summary's net amount is the balance above the initial deposit |
| Transactions.UpperCaseOfDeposit | Controllers/TransactionsController.cs:59 | "deposit" and "DEPOSIT" are equal once raised |
| Transactions.LowerCaseTypeIsListed | Controllers/TransactionsController.cs:56-64 | a "deposit" entry is listed under the type DEPOSIT |
| Transactions.LowerCaseTypeIsNotCounted | Controllers/TransactionsController.cs:84-90 | the same "deposit" entry changes neither the summary nor the recomputed balance, with the store comparing types ordinally (a case-sensitive collation) |
| Transactions.ApplyPatch | Controllers/TransactionsController.cs:170-190 | the `foreach` over the body yields exactly `Patched` (the type is stored upper-cased; a throwing conversion ends it) |
| Transactions.PatchStepChangesOnlyItsField | Controllers/TransactionsController.cs:172-189 | one entry changes only the field its lowered key selects |
| Transactions.PatchFromChangesOnlyNamedFields | Controllers/TransactionsController.cs:170-190 | the rest of the body changes only the fields its keys select |
| Transactions.PatchChangesOnlyNamedFields | Controllers/TransactionsController.cs:170-190 | `Id` and `CreatedAt` never change; every other field changes only if some key selects it; only `Type`/`AccountId` can be left null, and only if selected |
| Models.KnownOnly | Controllers/AccountsController.cs:142-159 | `Where` over the body of "the lowered key is one of the given fields" (the cases a PATCH switch recognises): every kept key is recognised, and a field is mentioned by the result iff it is recognised and the body mentions it |
| Models.FilterMentions | Controllers/AccountsController.cs:142-159 | filtering a body by recognised lowered keys keeps exactly the recognised fields it mentions |
| Models.LoweredKeys | Controllers/AccountsController.cs:142 | the body with each key lowered as the switch does, each value and the order kept; every resulting key is lower case |
| Transactions.UnknownKeysIgnored | Controllers/TransactionsController.cs:170-190 | the body acts exactly as its recognised entries alone |
| Transactions.PatchFromIgnoresKeyCase | Controllers/TransactionsController.cs:170-190 | the loop acts the same on the body with its keys lowered |
| Transactions.KeyCaseIgnored | Controllers/TransactionsController.cs:170-190 | "Amount", "AMOUNT" and "amount" act alike: the patch equals the patch with lowered keys, for every entry and body |
| Transactions.AccountsToRecalculate | Controllers/TransactionsController.cs:196-206 | the recompute decision names at most two accounts |
| Transactions.LowerCaseMentionIsExact | Controllers/TransactionsController.cs:197-202 | with lower-case keys, a key that selects a field is that exact key, so `ContainsKey` sees it |
| Transactions.ContributionMovesOnlyIfNamed | Controllers/TransactionsController.cs:170-190 | a patched entry's contribution to an account moves only through a key selecting its account, amount or type |
| Transactions.LowerCaseKeysRecalculateEveryAffectedAccount | Controllers/TransactionsController.cs:196-206 | with lower-case keys, every account whose ledger total the patch moved is recomputed |
| Transactions.MixedCaseAmountSkipsRecalculation | Controllers/TransactionsController.cs:172-206 | the key "Amount" sets the amount, yet no account is recomputed although the contribution moved |
| Transactions.AccountIdKeyMovesEntry | Controllers/TransactionsController.cs:186-188 | the key "AccountId" moves the entry to the given account |
| Transactions.MixedCaseAccountIdSkipsRecalculation | Controllers/TransactionsController.cs:186-201 | the key "AccountId" moves a counted entry, yet neither the old nor the new account is recomputed |
| Transactions.LowerCasePatchKeepsReconciled | Controllers/TransactionsController.cs:158-221 | a lower-case patch followed by the recomputations it triggers keeps a reconciled store reconciled |
| Transactions.TransactionsController.constructor | Controllers/TransactionsController.cs:14-17 | the controller works on the given store |
| Transactions.TransactionsController.UpdateAccountBalance | Controllers/TransactionsController.cs:249-266 | the account with that key moves by +amount for "DEPOSIT", −amount for "WITHDRAWAL", 0 otherwise, and is stamped; other rows and a missing key change nothing |
| Transactions.TransactionsController.RecalculateAccountBalance | Controllers/TransactionsController.cs:268-286 | the account with that key gets `InitialDeposit + deposits − withdrawals` and is stamped; nothing else changes |
| Transactions.TransactionsController.PostTransaction | Controllers/TransactionsController.cs:103-112 | appends the entry with the next identity and increments its account; a body with its own `Id` or an unknown account fails unchanged; reconciliation is kept |
| Transactions.TransactionsController.PutTransaction | Controllers/TransactionsController.cs:116-154 | BadRequest on id mismatch, NotFound when absent, else replaces the entry and recomputes only the body's account: reconciled if the account is unchanged, stale if a counted entry moved |
| Transactions.TransactionsController.RecalculateAfterPatch | Controllers/TransactionsController.cs:196-206 | recomputes exactly the accounts the exact-key decision names |
| Transactions.TransactionsController.PatchTransaction | Controllers/TransactionsController.cs:158-221 | NotFound when absent; ServerError and no change on a throwing conversion, a nulled required column or a broken foreign key; else saves and recomputes per the decision; lower-case keys keep reconciliation |
| Transactions.TransactionsController.DeleteTransaction | Controllers/TransactionsController.cs:225-242 | NotFound when absent; else removes exactly that entry and recomputes its account; reconciliation is kept; a deleted WITHDRAWAL of X gives X back |
| Accounts.ByNameIsTotalPreorder | Controllers/AccountsController.cs:60 | ordering by `AccountName` is a total preorder |
| Accounts.GetActiveAccounts | Controllers/AccountsController.cs:56-62 | exactly the active accounts, ascending by name |
| Accounts.CurrencyGroups | Controllers/AccountsController.cs:68-77 | one row per given currency, in order, each the count, balance sum and active count of its group |
| Accounts.GetAccountsSummary | Controllers/AccountsController.cs:66-88 | the total count is the number of accounts; the by-currency rows name no currency twice, every account's currency has a row, every row's currency is in use, and each row holds its currency's `Count`, balance `Sum` and active count (the model lists them in order of first appearance) |
| Accounts.EveryCurrencyHasARow | Controllers/AccountsController.cs:68-77 | every account's currency has a row |
| Accounts.EveryRowHasAnAccount | Controllers/AccountsController.cs:68-77 | every row's currency is used by some account |
| Grouping.CountIsLength | Controllers/AccountsController.cs:81 | `Count()` over a whole table (`CountAsync()` of the accounts, the per-group `Count()` summed over the records) is its number of rows |
| Accounts.GroupColumnsAreKeySums | Controllers/AccountsController.cs:68-77 | each summed column of the currency rows is the per-key sum over those currencies |
| Accounts.CurrencyGroupsAddUp | Controllers/AccountsController.cs:66-88 | the per-currency counts, balances and active counts add up to the totals |
| Accounts.ApplyPatch | Controllers/AccountsController.cs:140-162 | the `foreach` over the body followed by the `UpdatedAt` stamp yields exactly `Patched` |
| Accounts.PatchStepChangesOnlyItsField | Controllers/AccountsController.cs:142-159 | one entry changes only the field its lowered key selects |
| Accounts.PatchFromChangesOnlyNamedFields | Controllers/AccountsController.cs:140-160 | the rest of the body changes only the fields its keys select |
| Accounts.PatchChangesOnlyNamedFields | Controllers/AccountsController.cs:140-162 | `Id`, `AccountId`, `InitialDeposit`, `CreatedDate`, `CreatedAt` never change, `UpdatedAt` is stamped, other fields change only if selected |
| Accounts.EmptyPatchOnlyStamps | Controllers/AccountsController.cs:162 | an empty body still stamps `UpdatedAt` and changes nothing else |
| Accounts.PatchFromIgnoresUnknownKeys | Controllers/AccountsController.cs:140-160 | the loop acts exactly as its recognised entries alone |
| Accounts.UnknownKeysIgnored | Controllers/AccountsController.cs:140-162 | the whole patch acts exactly as its recognised entries alone |
| Accounts.PatchFromIgnoresKeyCase | Controllers/AccountsController.cs:140-160 | the loop acts the same on the body with its keys lowered |
| Accounts.KeyCaseIgnored | Controllers/AccountsController.cs:140-162 | "CurrentBalance", "CURRENTBALANCE" and "currentbalance" act alike: the patch equals the patch with lowered keys, for every account and body |
| Accounts.BalanceKeyOverwrites | Controllers/AccountsController.cs:147-149 | a key lowering to "currentbalance" sets the cached balance to the value it carries |
| Accounts.BalancePatchOverwrites | Controllers/AccountsController.cs:147-162 | such a body, in any case, yields the row with that balance and the stamp |
| Accounts.BalancePatchBreaksReconciliation | Controllers/AccountsController.cs:147-148 | overwriting the balance with anything but the ledger-implied value leaves the row unreconciled |
| Accounts.AccountsController.constructor | Controllers/AccountsController.cs:14-17 | the controller works on the given store |
| Accounts.AccountsController.PatchAccount | Controllers/AccountsController.cs:132-181 | NotFound when absent; ServerError and no change on a throwing conversion or a nulled required column; else saves the patched row; reconciled afterwards iff that row's balance is the ledger-implied one, always so without a `currentbalance` key |
| Accounts.AccountsController.PutAccount | Controllers/AccountsController.cs:102-128 | BadRequest on id mismatch, NotFound when absent, ServerError on a key clash or stranded entries, else replaces the row; reconciled afterwards iff the body's balance is the ledger-implied one |
| Accounts.AccountsController.PostAccount | Controllers/AccountsController.cs:92-98 | inserts with the next identity and `IsActive` true (the store default replaces false); a body with its own `Id` or a reused `AccountId` fails; reconciled afterwards iff balance equals initial deposit |
| Accounts.AccountsController.DeleteAccount | Controllers/AccountsController.cs:185-197 | NotFound when absent; ServerError while entries reference it; else removes exactly that row; reconciliation is kept |
| Accounts.NewKeyHasNoEntries | Controllers/AccountsController.cs:92-98 | an account whose key no row has yet has no entries, so its ledger-implied balance is its initial deposit |
| Accounts.NoEntriesSumToNothing | Controllers/TransactionsController.cs:273-279 | sums over a ledger with no entry of the account are 0 |
| Accounts.StrandedEntryIsReferenced | Data/AppDbContext.cs:199-203 | removing an account breaks a constraint only when some entry references its key |
| PerformanceRecords.NewerFirstIsTotalPreorder | Controllers/PerformanceController.cs:46 | descending `DateTime` is a total preorder |
| PerformanceRecords.ByFxIdIsTotalPreorder | Controllers/PerformanceController.cs:58 | ordering by `FxId` is a total preorder |
| PerformanceRecords.GetPerformanceByFxId | Controllers/PerformanceController.cs:42-50 | exactly the records with that `FxId`, newest `DateTime` first |
| PerformanceRecords.GetPerformanceByWeek | Controllers/PerformanceController.cs:54-62 | exactly the records of that week and year, ascending by `FxId` |
| PerformanceRecords.FxGroup | Controllers/PerformanceController.cs:70-77 | a group row names its `FxId`, counts at least one record, and `LastUpdated` is the latest `DateTime` in the group |
| PerformanceRecords.PresentKeyIsCounted | Controllers/PerformanceController.cs:75 | a group with a record has a count of at least 1 |
| PerformanceRecords.CountIsNonNegative | Controllers/PerformanceController.cs:75 | a group count is never negative |
| PerformanceRecords.FxGroups | Controllers/PerformanceController.cs:68-77 | one row per given `FxId`, in order |
| PerformanceRecords.GetPerformanceSummary | Controllers/PerformanceController.cs:66-81 | the rows name no `FxId` twice, every record's `FxId` has a row, every row's `FxId` has records, and each row holds its `FxId`'s `Sum(Results)`, `Count()` and `Max(DateTime)` (the model lists them in order of first appearance) |
| PerformanceRecords.EveryFxIdHasARow | Controllers/PerformanceController.cs:68-77 | every record's `FxId` has a row |
| PerformanceRecords.EveryRowHasRecords | Controllers/PerformanceController.cs:68-77 | every row's `FxId` has a record |
| PerformanceRecords.GroupColumnsAreKeySums | Controllers/PerformanceController.cs:68-77 | the summed columns of the rows are the per-key sums |
| PerformanceRecords.SummaryAddsUp | Controllers/PerformanceController.cs:68-77 | record counts add up to the number of records and `TotalResults` add up to the overall sum of `Results` |
| PerformanceRecords.ApplyPatch | Controllers/PerformanceController.cs:133-176 | the `foreach` over the body followed by the `UpdatedAt` stamp yields exactly `Patched` |
| PerformanceRecords.PatchStepChangesOnlyItsField | Controllers/PerformanceController.cs:135-173 | one entry changes only the field its lowered key selects |
| PerformanceRecords.PatchFromChangesOnlyNamedFields | Controllers/PerformanceController.cs:133-174 | the rest of the body changes only the fields its keys select |
| PerformanceRecords.PatchChangesOnlyNamedFields | Controllers/PerformanceController.cs:133-176 | `Id`, `FxId`, `AccountBase`, `CreatedAt` never change, `UpdatedAt` is stamped, each of the twelve columns changes only if selected |
| PerformanceRecords.EmptyPatchOnlyStamps | Controllers/PerformanceController.cs:176 | an empty body still stamps `UpdatedAt` and changes nothing else |
| PerformanceRecords.PatchFromIgnoresUnknownKeys | Controllers/PerformanceController.cs:133-174 | the loop acts exactly as its recognised entries alone |
| PerformanceRecords.UnknownKeysIgnored | Controllers/PerformanceController.cs:133-176 | the whole patch acts exactly as its recognised entries alone |
| PerformanceRecords.PatchFromIgnoresKeyCase | Controllers/PerformanceController.cs:133-174 | the loop acts the same on the body with its keys lowered |
| PerformanceRecords.KeyCaseIgnored | Controllers/PerformanceController.cs:133-176 | "Results", "RESULTS" and "results" act alike: the patch equals the patch with lowered keys |
| PerformanceRecords.PatchStepFailsOnlyOnThrow | Controllers/PerformanceController.cs:137-171 | one entry fails exactly when its key selects a numeric or date column whose conversion throws |
| PerformanceRecords.PatchFromFailsOnlyOnThrow | Controllers/PerformanceController.cs:133-174 | the loop fails exactly when some entry's conversion throws |
| PerformanceRecords.PatchFailsExactlyOnThrow | Controllers/PerformanceController.cs:133-176 | the patch fails exactly when some entry's conversion throws, whatever the record |
| PerformanceRecords.RemovalDropsExactlyTheRecord | Controllers/PerformanceController.cs:201-208 | removing a row takes out that record, one copy of it, and no other record has its id |
| PerformanceRecords.PerformanceController.constructor | Controllers/PerformanceController.cs:14-17 | the controller works on the given store |
| PerformanceRecords.PerformanceController.GetPerformance | Controllers/PerformanceController.cs:28-38 | Ok with the record of that id when one exists, NotFound otherwise |
| PerformanceRecords.PerformanceController.PatchPerformance | Controllers/PerformanceController.cs:125-195 | NotFound and no change when absent; ServerError and no change on a throwing conversion; else saves the patched, stamped record |
| PerformanceRecords.PerformanceController.PutPerformance | Controllers/PerformanceController.cs:95-121 | BadRequest on id mismatch, NotFound when absent, else replaces exactly that record |
| PerformanceRecords.PerformanceController.PostPerformance | Controllers/PerformanceController.cs:85-91 | appends the record with the next identity; a body with its own `Id` fails unchanged |
| PerformanceRecords.PerformanceController.DeletePerformance | Controllers/PerformanceController.cs:199-211 | NotFound when absent, else removes exactly that record and no record with that id remains |
| Scenario.OpenDepositWithdrawPatchDelete | Controllers/TransactionsController.cs:103-242 | AC1 opened with 1000, DEPOSIT 200, WITHDRAWAL 50, patch of the withdrawal to 100, delete of the deposit: balances 1000, 1200, 1150, 1100, 900 |
| Scenario.Open | Controllers/AccountsController.cs:92-98 | POST of AC1 yields a store holding that account with identity 1 |
| Scenario.PostDeposit | Controllers/TransactionsController.cs:103-112 | POST of a DEPOSIT of 200 raises AC1 to 1200 |
| Scenario.PostWithdrawal | Controllers/TransactionsController.cs:103-112 | POST of a WITHDRAWAL of 50 lowers AC1 to 1150 |
| Scenario.PatchWithdrawal | Controllers/TransactionsController.cs:158-221 | PATCH `{"amount": 100}` of the withdrawal recomputes AC1 to 1100 |
| Scenario.DeleteDeposit | Controllers/TransactionsController.cs:225-242 | DELETE of the deposit recomputes AC1 to 900 |
| Scenario.LedgerBalances | Controllers/TransactionsController.cs:273-281 | the ledger implies 1100 for AC1 with both entries and 900 with the withdrawal alone |
| Scenario.PatchOfAmount | Controllers/TransactionsController.cs:172-205 | the key "amount" sets the amount and names the entry's account for recomputation |

## Left out

- `async`/`await`, EF change tracking, and the `DbUpdateConcurrencyException` branches: a record deleted by another request between read and save is concurrency, outside a sequential model.
- Plain reads (`GetAccounts`, `GetAccount`, `GetAccountByAccountId`, `GetTransaction`, `GetPerformance()`): each is a table read or the `FindAccount`/`FindAccountByKey`/`FindTransaction` lookup the model defines.
- JSON conversion: a PATCH value is given by what each conversion yields (`Models.Value`), not parsed from `JsonElement`. With the default System.Text.Json binder, a non-null value arrives as a `JsonElement`, on which `Convert.ToDecimal`, `ToInt32`, `ToDateTime` and `ToBoolean` throw, so under that binder such a value is a `Value` whose `decimal`, `int32`, `dateTime` and `boolean` are all None (the 500 branch); a JSON null converts to 0, false or `MinValue`. `Scenario.PatchWithdrawal` assumes a binder whose numbers convert.
- The `AverageResults` column of the performance summary: decimal division and rounding.
- `decimal` overflow beyond `decimal(15,2)` and `HasMaxLength` column limits: amounts are unbounded and strings unlimited.
- Collation: every string comparison the store evaluates is modelled as ordinal, i.e. a case-sensitive collation is assumed. That covers the type and `AccountId` filters and sums, the account lookups, the group keys, the unique `AccountId` index and `OrderBy` on strings. Under SQL Server's default case-insensitive collation, the recompute would count a "deposit" entry that the incremental path (an ordinal C# `==`) ignores, and the unique index would reject "ac1" beside "AC1".
- `ToLower`/`ToUpper` on non-ASCII letters: only ASCII case mapping is modelled.
- Store defaults `GETDATE()` for `CreatedAt`/`UpdatedAt` on insert: timestamps are taken from the body as given.
- Identity values consumed by a failed insert: the seed advances only on success.
- Program.cs and the diagnostic controllers (DbTestController.cs, HomeController.cs, TestController.cs) are not part of this model: service wiring, connection strings and raw SQL diagnostics.
- Accounts.AccountsController.PutAccount: how EF treats the alternate key `AccountId` on a full update is not modelled; the model writes every column and lets the store's constraints decide.
- Transactions.TransactionsController.PostTransaction: the entry is saved before the balance is updated in a second save; the model performs both as one step, so the divergence window between the two saves is not represented.
- Accounts.GetAccountsSummary and PerformanceRecords.GetPerformanceSummary: the `GroupBy` becomes a SQL `GROUP BY` with no `ORDER BY`, so the store guarantees no row order; the model fixes first-appearance order where the store guarantees none.

