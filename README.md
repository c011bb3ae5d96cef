# Expense sharing: balances and settlements

A model of the computational core of a single-page expense-sharing app
(`app/page.tsx`). A group of friends records who paid how much. The page then
computes:

1. every friend's balance against an equal split of the total
   (`calculateBalances`);
2. a list of transfers that settles those balances (`optimizeSettlements`). The
   most negative debtor pays the most positive creditor, and so on, in a greedy
   two-cursor walk.

Three small handlers maintain the friend and expense lists: `addFriend`,
`removeFriend` and `addExpense`.

The files:

- `types.dfy`: the page's records `Friend`, `Expense` and `Settlement`.
- `ledger.dfy`: the balance object, a JS object keyed by name. It is an association list in insertion order, with get (`Lookup`) and set (`Put`) semantics. `KeySeq` lists the keys in that order, the order `Object.entries` hands to the debtor and creditor filters. A value is a number or `NaN`, since `undefined + amount` is `NaN` in JS.
- `handlers.dfy`: the three list handlers, as functions from the old list to the new one.
- `balances.dfy`: `calculateBalances` as a method. It has one loop per `forEach` pass, and each loop is proved against a per-pass invariant, ending in the specification `IsBalanceSheet`. Conservation lemmas follow.
- `settlements.dfy`:
  - the `Debtors`/`Creditors` filters;
  - the sort, as a stable insertion sort;
  - the cursor loop as a method `Settle`, proved equal to the recursive reference `Greedy`;
  - lemmas on `Greedy` and on the whole plan `Plan`.
- `page.dfy`: the render-time pipeline `balances → settlements`, and the end-to-end theorems.
- `scenarios.dfy`: worked examples of small groups.

Where the page's behaviour is surprising, the model follows the code:

- An expense whose payer is no longer a friend does not create a number entry. It yields `NaN` (`undefined + amount`). That entry is neither debtor nor creditor, so the remaining balances cannot all be settled. See `Balances.OrphanPayerIsNaN` and `Scenarios.RemovedPayer`.
- With no friends, nothing is rejected. The share `total / 0` is never used, because the debit pass runs over no friends.
- Duplicate names are not rejected. One key receives one share per friend carrying the name. The balances still sum to zero (`Balances.BalancesSumToZero` does not need distinct names). Only the per-friend "total / n" statement needs them.
- Negative amounts are not rejected. Nothing in the model assumes a sign for an amount.

## Model

| member | source | states |
|---|---|---|
| Handlers.AddFriend | app/page.tsx:35-40 | an empty name leaves the list unchanged; otherwise exactly one friend (fresh id, the name) is appended after the old list; the name input is always cleared |
| Handlers.RemoveFriend | app/page.tsx:42-44 | a friend is kept exactly when its id differs from the removed id; the list never grows |
| Handlers.RemoveFriendDistributes | app/page.tsx:43 | the filter keeps relative order: filtering a concatenation is the concatenation of the filtered parts |
| Handlers.RemoveAbsentId | app/page.tsx:43 | removing an id nobody carries returns the same list |
| Handlers.RemoveAddedFriend | app/page.tsx:35-44 | removing a friend just added under a fresh id restores the previous list |
| Handlers.RemoveFriendIdempotent | app/page.tsx:43 | removing the same id twice equals removing it once |
| Handlers.AddExpense | app/page.tsx:46-56 | an incomplete form (payer, amount or description empty) changes nothing; a complete one appends exactly one expense with id `length + 1` and clears the form |
| Handlers.AddExpenseKeepsIds | app/page.tsx:49 | ids built by `addExpense` stay `1, 2, 3, …` in list order, so no two expenses share an id |
| Ledger.Lookup | app/page.tsx:66 | a property read finds a value exactly when the key is present |
| Ledger.Put | app/page.tsx:60 | a property write adds the key, stores the value under it, leaves every other key's value unchanged and keeps keys distinct |
| Ledger.PutOrder | app/page.tsx:60 | a property write leaves an existing key where it is and puts a new key last |
| Balances.ZeroFriends | app/page.tsx:60 | after the first pass the keys are exactly the friend names, in order of first appearance, each holding 0 |
| Balances.CreditPayers | app/page.tsx:65-67 | after the second pass each friend name holds what it paid and every other payer holds NaN; payers who are no friend were added after the names, in order of first appearance |
| Balances.DebitFriends | app/page.tsx:69-71 | after the third pass each friend name is also debited one share per friend carrying that name, and the key order is unchanged |
| Balances.DebitOrder | app/page.tsx:70 | one `-=` on a friend's name writes a key already present, so the key order stays |
| Balances.CreditStep | app/page.tsx:66 | one `+=` on the payer keeps the second-pass invariant, one expense further |
| Balances.DebitStep | app/page.tsx:70 | one `-=` on a friend's name keeps the third-pass invariant, one friend further |
| Balances.CalculateBalances | app/page.tsx:58-74 | the result has one key per friend name and per payer, friend names first, each in order of first appearance; a friend name holds what it paid minus its shares of `total / friends.length`, a payer who is no friend holds NaN |
| Balances.SumPaidIsTotal | app/page.tsx:62-67 | over keys that include every payer once, the credited amounts add up to the `reduce` total |
| Balances.SumChargedIsHeadCount | app/page.tsx:69-71 | over keys that include every friend name once, the debits add up to one share per friend |
| Balances.BalancesSumToZero | app/page.tsx:58-74 | with at least one friend and every payer a friend, every balance is a number and the balances sum to exactly zero |
| Balances.OrphanPayerIsNaN | app/page.tsx:66 | a payer missing from the friend list ends with a NaN balance |
| Balances.DistinctNameCharged | app/page.tsx:69-71 | with distinct names, a name is debited exactly one share if it is a friend's and nothing otherwise |
| Balances.FriendBalance | app/page.tsx:59-71 | with distinct names, each friend's balance is what it paid minus `total / friends.length` |
| Balances.NameOrderOfDistinct | app/page.tsx:60 | with distinct names, the first pass writes one key per friend, in friend order |
| Balances.FriendsFirst | app/page.tsx:59-67 | the keys start with the friend names; every later key is a payer who is no friend |
| Balances.SheetUnique | app/page.tsx:58-74 | two balance objects for the same friends and expenses are the same object, key order included |
| Settlements.Debtors | app/page.tsx:78 | the debtors are exactly the entries with a number below zero (NaN entries excluded) |
| Settlements.Creditors | app/page.tsx:79 | the creditors are exactly the entries with a number above zero (NaN entries excluded) |
| Settlements.SortSortsPermutation | app/page.tsx:81-82 | the sort returns its input reordered (same multiset) and ordered by the comparator, ascending for debtors and descending for creditors |
| Settlements.SortTotals | app/page.tsx:81-82 | sorting keeps the set of names, the total and every name's balance |
| Settlements.Settle | app/page.tsx:84-108 | the cursor loop, overwriting the current debtor or creditor with what is left of it, pushes exactly the transfers of the reference walk `Greedy` and stops with the lists `GreedyLeft` leaves |
| Settlements.OptimizeSettlements | app/page.tsx:76-111 | the result is the reference walk over the sorted debtors and creditors |
| Settlements.GreedyShape | app/page.tsx:88-96 | every pushed transfer has a positive amount, a debtor's name as `from` and a creditor's name as `to` |
| Settlements.GreedyLength | app/page.tsx:84-108 | with `m` debtors and `n` creditors at most `m + n - 1` transfers are pushed, none when either side is empty |
| Settlements.GreedySettles | app/page.tsx:84-108 | when debts and credits cancel, each name's balance plus what it pays minus what it receives is zero |
| Settlements.GreedyRunsOut | app/page.tsx:84-108 | when debts and credits cancel, the loop stops with neither a debtor nor a creditor left: both cursors run off their lists together |
| Settlements.GreedyStarts | app/page.tsx:85-96 | the walk is empty exactly when a side is empty; otherwise its first transfer is from the head debtor to the head creditor for the smaller amount |
| Settlements.PartiesSplit | app/page.tsx:78-79 | debtors and creditors together carry every name's numeric balance, nothing more |
| Settlements.PartiesSum | app/page.tsx:78-79 | debtors and creditors together sum to the numeric sum of the balances |
| Settlements.PartiesCount | app/page.tsx:78-79 | no entry is both a debtor and a creditor |
| Settlements.PlanSettles | app/page.tsx:76-111 | when the balances sum to zero, carrying out the plan brings every name's balance to exactly zero |
| Settlements.PlanShape | app/page.tsx:76-111 | every transfer is positive, from a name that owes to a different name that is owed; zero and NaN balances never appear |
| Settlements.PlanLength | app/page.tsx:84-108 | with `n` entries the plan has at most `n - 1` transfers |
| Settlements.PlanEmpty | app/page.tsx:78-85 | the plan is empty exactly when nobody holds a negative number or nobody holds a positive one |
| Settlements.PlanFirst | app/page.tsx:81-96 | the first transfer goes from a most negative balance to a most positive one, for the smaller of the two amounts |
| Page.SettleUp | app/page.tsx:113-114 | the page's balances are the balance sheet of its friends and expenses, and its settlements are the plan for them |
| Page.TransfersBetweenFriends | app/page.tsx:58-114 | when every payer is a friend, each transfer is positive and runs between two different friends, and there are fewer transfers than friends |
| Page.EveryonePaysTheirShare | app/page.tsx:58-114 | with at least one friend and every payer a friend, carrying out the plan leaves each name having paid (expenses plus transfers out minus transfers in) exactly the shares debited to it |
| Page.EqualSplit | app/page.tsx:58-114 | with distinct names as well, each friend ends having paid exactly `total / friends.length` |
| Scenarios.OnePayerOfThreeBalances | app/page.tsx:58-74 | Alice paying 90 for three gives Alice 60, Bob -30, Carol -30, in that key order |
| Scenarios.OnePayerOfThreePlan | app/page.tsx:58-114 | any object the page computes for that group is Alice 60, Bob -30, Carol -30 in that order, and it is settled by Bob then Carol each paying Alice 30 |
| Scenarios.EvenSplitBalances | app/page.tsx:58-74 | two friends paying 50 each are both at 0 |
| Scenarios.EvenSplit | app/page.tsx:58-114 | any object the page computes for them is that one, and no transfer is proposed |
| Scenarios.RemovedPayerBalances | app/page.tsx:58-74 | an expense by a removed friend leaves that name at NaN and the others owing 20 each |
| Scenarios.RemovedPayer | app/page.tsx:58-114 | any object the page computes for them is that one, and no transfer is proposed |

## Left out

- The JSX rendering, `useState`, and the five-step navigation (app/page.tsx:29, 116-266) are presentation. The handlers return the new list and the new input contents instead of calling the state setters.
- `Date.now().toString()` (app/page.tsx:37) reads the clock. `AddFriend` takes the fresh id as a parameter.
- Handlers.AddExpense: `parseFloat` (app/page.tsx:51) is taken as already done. The parsed amount is a parameter, so a non-numeric amount string that parses to NaN is not modelled.
- `toFixed(2)` display rounding is presentation and is not modelled.
- Amounts are exact reals, not IEEE-754 doubles. Rounding drift, `Infinity` and `-0` are not modelled. `NaN` is modelled only where the code produces it from `undefined + amount`.
- Integer-like keys: a JS object lists such keys before the others. The model keeps plain insertion order, which matters only for the tie order of equal balances. Keys that name inherited `Object.prototype` members are not modelled either.
- `Array.prototype.sort` is modelled as a stable insertion sort on values, not as an in-place sort of an array. Only `Scenarios.OnePayerOfThreePlan` depends on the tie order. Every general lemma uses only that the result is a sorted permutation, and `GreedyShape`, `GreedyLength` and `GreedySettles` do not even need the order.
- The code rejects neither an empty friend list nor a payer who is not a friend, so the model raises no error for either.
- Idempotence of `optimizeSettlements` is immediate here, since `Plan` is a function of the balances, and it has no lemma of its own.
