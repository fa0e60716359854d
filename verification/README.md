# Double-entry ledgers of moneypy and bizpy, modelled in Dafny

This project models four pieces of the repository's accounting code and proves
what they promise.

* **moneypy ledger primitives** (`ledger.dfy`, module `Ledger`). Accounts, entries
  and transactions are immutable values. An entry quantizes its amount to
  `CURRENCY_EPSILON = Decimal("1.00")` with `ROUND_HALF_EVEN`, so amounts are whole
  cents. A transaction is refused unless it has at least two entries, its entries
  sum to zero and every entry names the transaction. `gross_cost` is the sum of
  the credits.
* **moneypy equal split** (`splitting.dfy`, module `Splitting`). `EqualSplitter.split`
  quantizes the cost and gives every creditor and every debtor an equal share of it.
  The first `k - 1` legs of a group get the rounded quotient and the last leg gets the
  remainder. Creditor legs are credits, debtor legs are debits, and the whole split
  sums to zero.
* **bizpy business journal** (`bookkeeping.dfy`, module `Bookkeeping`). There are
  fifteen coded accounts. Journal transactions are objects whose `processed` flag
  changes in place. Business events (stock issue, payroll, loan, capital purchase,
  product sale) append their transactions to a transaction group. A `Business`
  merges groups into a date-sorted journal. `process_transactions` posts every
  unprocessed transaction dated on or before a cutoff, exactly once, and marks it
  processed.
* **bizpy asset/liability ledger** (`finance.dfy`, module `Finance`). There are four
  accounts. A debit raises an asset and lowers a liability, and a credit does the
  reverse. `raise_equity` and `purchase_inventory` append to a journal. `process`
  applies every journal entry, debit side first, then empties the journal.

Module `Results` (`results.dfy`) holds the `Option` and `Result` types.

## How the model is built

* **Amounts.** Raw moneypy amounts are `real` numbers of currency units. Quantized
  amounts are `int` cents. `Quantize(x)` is `x * 100` rounded half to even.
* **Transaction errors.** The three `ValueError`s of transaction validation become
  the three `TransactionError` cases. They are checked in the source's order.
* **Split errors.** A split with an empty group divides the cost by zero. Decimal
  division then signals `DivisionByZero`, or `DivisionUndefined` when the cost is
  zero. The model returns these as `SplitError` values.
* **Identifiers.** Fresh uuid4 identifiers become functions passed in as parameters.
  `entryUid(i)` is the identifier of the `i`-th leg of a split; `uids(i)` is that of
  the `i`-th transaction of a group.
* **bizpy `Transaction` and `TransactionGroup`.** Both are classes. A group's
  constructors are the named constructors of `TransactionGroup`; they append through
  `AppendTransaction` as the source's `_append_transaction` does.
* **The `Business` journal (bizpy).** It is a `seq` of transaction references.
* **Specification of processing.** `process_transactions` is specified by the
  step function `Next` and the pass function `Post`. The ghost field `posted`
  records every transaction the business has posted. The invariant `Valid` states
  that each balance is the sum of what was posted to it, nothing was posted twice,
  and the journal stays sorted.
* **Sorting.** `list.sort` on the merged journal is stable. It is modelled as
  inserting each new transaction after every journal transaction whose date is not
  later (`InsertByDate`).
* **Finance ledger.** The four account objects of `Ledger` are one `array<real>`.
  Each account has a fixed slot, `AccountId.Index()`. Journal transactions name
  accounts by `AccountId`.

Facts about the code that shape the model:

* **Precision.** `CURRENCY_EPSILON = Decimal("1.00")`, so amounts are quantized to
  cents. For example, 10.00 split three ways is 3.33, 3.33 and 3.34
  (`Splitting.ThreeWaySplitOfTen`).
* **Rounding direction.** The per-leg share is rounded half to even, so it can round
  up: 0.06 split eight ways gives a share of 0.01 and a last leg of -0.01
  (`Splitting.EightWaySplitOfSixCents`).
* **Empty groups.** An empty group raises decimal `DivisionByZero`, or
  `InvalidOperation` (the `DivisionUndefined` condition) when the cost is zero.
* **Balance check.** An unbalanced transaction raises a `ValueError`; the model calls
  this error `OutOfBalance`.

## Model

| member | source | states |
|---|---|---|
| Ledger.RoundHalfEven | moneypy/src/moneypy/accounting.py:22 | the result is within one half of the input, and an exact tie goes to the even neighbour (banker's rounding) |
| Ledger.RoundHalfEvenUnique | moneypy/src/moneypy/accounting.py:22 | any integer that satisfies the half-even rule is the rounded value, so the rule fixes the result |
| Ledger.Quantize | moneypy/src/moneypy/accounting.py:21-22 | the quantized amount is the number of cents nearest to the amount, ties to even |
| Ledger.QuantizeCents | moneypy/src/moneypy/accounting.py:81-85 | an amount that is already a whole number of cents is left unchanged |
| Ledger.QuantizeIdempotent | moneypy/src/moneypy/accounting.py:81-85 | quantizing an already quantized amount changes nothing |
| Ledger.NewEntry | moneypy/src/moneypy/accounting.py:76-85 | constructing an entry never fails, keeps its three identifiers and stores the amount rounded half-even to cents |
| Ledger.NewEntryOfCents | moneypy/src/moneypy/accounting.py:81-85 | an entry built from a whole-cent amount holds exactly that amount |
| Ledger.NewTransaction | moneypy/src/moneypy/accounting.py:125-137 | construction succeeds exactly when there are at least two entries, the entries sum to zero and each names the transaction; otherwise it fails with the error of the first failing check, the imbalance error carrying the total and the description |
| Ledger.Credits | moneypy/src/moneypy/accounting.py:139-142 | the sum of the positive amounts is never negative |
| Ledger.Debits | moneypy/src/moneypy/accounting.py:139-142 | the magnitude of the negative amounts is never negative |
| Ledger.GrossCost | moneypy/src/moneypy/accounting.py:139-142 | the gross cost is never negative |
| Ledger.TotalIsCreditsMinusDebits | moneypy/src/moneypy/accounting.py:130-142 | the signed total of any entries is their credits minus their debits |
| Ledger.GrossCostOfValid | moneypy/src/moneypy/accounting.py:125-142 | in a valid transaction the gross cost equals the debits, so it measures the event from either side |
| Ledger.TotalAppend | moneypy/src/moneypy/accounting.py:130 | the total of two concatenated entry lists is the sum of their totals |
| Splitting.Repeat | moneypy/src/moneypy/split.py:55-57 | `[x] * n` has `n` elements, all equal to `x` |
| Splitting.SumRepeat | moneypy/src/moneypy/split.py:58 | `n` copies of `x` sum to `n * x` |
| Splitting.Share | moneypy/src/moneypy/split.py:55 | the share is the quantized cost divided by the group size, rounded half-even to a whole cent |
| Splitting.GroupAmounts | moneypy/src/moneypy/split.py:55-58 | a group of `k` gets `k` amounts: `k - 1` equal shares, then the remainder; they sum to exactly the cost |
| Splitting.ShareIsRoundedQuotient | moneypy/src/moneypy/split.py:55 | the share is cost / k rounded half-even to a cent, so `k` shares miss the cost by at most k/2 cents either way |
| Splitting.RemainderNearShare | moneypy/src/moneypy/split.py:55-58 | the remainder leg differs from a regular share by at most k/2 cents |
| Splitting.ShareOfZero | moneypy/src/moneypy/split.py:55 | nothing divided among any group gives a zero share |
| Splitting.SignedAmounts | moneypy/src/moneypy/split.py:69-80 | debtor legs are the group amounts negated; creditor legs are the group amounts unchanged |
| Splitting.DivideByEmpty | moneypy/src/moneypy/split.py:55-72 | dividing by an empty group reports that group; the error is `DivisionUndefined` exactly when the cost is zero, otherwise `DivisionByZero` |
| Splitting.Legs | moneypy/src/moneypy/split.py:59-81 | one entry per account of the group, in group order, each with its own fresh identifier, the split's transaction and that account |
| Splitting.LegsTotal | moneypy/src/moneypy/split.py:55-81 | the legs of one group sum to the quantized cost for creditors and to its negation for debtors |
| Splitting.LegsAmounts | moneypy/src/moneypy/split.py:59-81 | each leg's entry holds its signed amount exactly, because the amount is already in cents |
| Splitting.Split | moneypy/src/moneypy/split.py:25-83 | an empty creditor group fails first and then an empty debtor group, with the matching division error; otherwise the split succeeds with one entry per leg |
| Splitting.SplitAccounts | moneypy/src/moneypy/split.py:59-81 | a successful split lists the creditor legs first in creditor order, then the debtor legs in debtor order, each on its own account |
| Splitting.SplitIdentifiers | moneypy/src/moneypy/split.py:59-81 | every entry of a successful split belongs to the split's transaction, and entry `i` gets the `i`-th fresh identifier |
| Splitting.SplitShape | moneypy/src/moneypy/split.py:59-83 | creditor legs come first in creditor order, then debtor legs in debtor order; every entry names the transaction, and entry `i` gets the `i`-th fresh identifier |
| Splitting.SplitAmounts | moneypy/src/moneypy/split.py:53-80 | in each group every leg but the last is the share and the last is the remainder; debtor legs are these amounts negated |
| Splitting.SplitSingletons | moneypy/src/moneypy/split.py:53-83 | one creditor and one debtor get plus and minus the whole quantized cost |
| Splitting.SplitZeroCost | moneypy/src/moneypy/split.py:53-83 | a cost that quantizes to zero gives all-zero legs |
| Splitting.SplitBalanced | moneypy/src/moneypy/split.py:53-83 | the credit legs sum to the quantized cost, the debit legs to its negation, and the whole split to exactly zero, for any cost and group sizes |
| Splitting.SplitMakesValidTransaction | moneypy/src/moneypy/split.py:53-83 | the entries of any successful split, wrapped in a transaction with the same identifier, always pass transaction validation |
| Splitting.ThreeWaySplitOfTen | moneypy/src/moneypy/split.py:55-58 | 10.00 over three legs is 3.33, 3.33, 3.34: the last leg absorbs the remainder |
| Splitting.EightWaySplitOfSixCents | moneypy/src/moneypy/split.py:55-58 | 0.06 over eight legs rounds the share up to 0.01, so the remainder leg is -0.01 |
| Bookkeeping.CodesDistinct | bizpy/src/bizpy/accounting.py:14-34 | no two account codes share a value, so balances keyed by value lose nothing |
| Bookkeeping.EveryCodeListed | bizpy/src/bizpy/accounting.py:14-34 | every account code is among those the business opens a balance for |
| Bookkeeping.Transaction.constructor | bizpy/src/bizpy/accounting.py:37-51 | a new transaction keeps its date, account, amount and identifiers and starts unprocessed |
| Bookkeeping.Transaction.MarkProcessed | bizpy/src/bizpy/accounting.py:75-76 | the flag is set afterwards |
| Bookkeeping.TransactionGroup.Empty | bizpy/src/bizpy/accounting.py:85-88 | a new group has its identifier and no transactions |
| Bookkeeping.TransactionGroup.AppendTransaction | bizpy/src/bizpy/accounting.py:90-91 | exactly one new, unprocessed transaction stamped with the group's identifier is appended, and the earlier ones stay in place |
| Bookkeeping.TransactionGroup.CommonStockIssue | bizpy/src/bizpy/accounting.py:97-101 | the group holds fresh, distinct, unprocessed transactions posting shares × price to equity and to cash, in that order |
| Bookkeeping.TransactionGroup.Payroll | bizpy/src/bizpy/accounting.py:104-109 | the group holds the three payroll postings: cash minus checks, accrued expenses plus (expense minus checks), and retained earnings minus the expense (the corrected sign, see Findings) |
| Bookkeeping.TransactionGroup.Loan | bizpy/src/bizpy/accounting.py:112-117 | the group holds the fixed loan postings: 100000 short-term debt, 900000 long-term debt, 1000000 cash |
| Bookkeeping.TransactionGroup.CapitalPurchase | bizpy/src/bizpy/accounting.py:120-124 | the group holds cash minus the amount, then equipment plus the amount |
| Bookkeeping.TransactionGroup.ProductSale | bizpy/src/bizpy/accounting.py:127-132 | the group holds cash plus revenue, inventory minus cost of goods, retained earnings plus the margin |
| Bookkeeping.StockIssueBalanced | bizpy/src/bizpy/accounting.py:97-101 | a stock issue keeps the accounting equation |
| Bookkeeping.PayrollPostings | bizpy/src/bizpy/accounting.py:104-109 | the payroll as written: its postings move the accounting equation by minus twice the payroll expense |
| Bookkeeping.PayrollBalancedOnlyWithoutExpense | bizpy/src/bizpy/accounting.py:104-109 | as written, a payroll keeps the accounting equation if and only if the expense is zero |
| Bookkeeping.PayrollUnbalancedExample | bizpy/src/bizpy/accounting.py:104-109 | a payroll of 100 expense paid fully by check puts the equation out by 200 |
| Bookkeeping.CorrectedPayrollBalanced | bizpy/src/bizpy/accounting.py:104-109 | with the expense taken off retained earnings, every payroll keeps the equation |
| Bookkeeping.LoanIsFixed | bizpy/src/bizpy/accounting.py:112-117 | the loan's postings do not depend on the amount asked for, and they keep the equation |
| Bookkeeping.CapitalPurchaseBalanced | bizpy/src/bizpy/accounting.py:120-124 | a capital purchase keeps the accounting equation |
| Bookkeeping.ProductSaleBalanced | bizpy/src/bizpy/accounting.py:127-132 | a product sale keeps the accounting equation |
| Bookkeeping.InsertionPoint | bizpy/src/bizpy/accounting.py:78-82 | a stable sort places a new transaction after every transaction dated no later, and before the later-dated tail |
| Bookkeeping.InsertByDateAt | bizpy/src/bizpy/accounting.py:148-150 | inserting keeps the earlier transactions in order, puts the new one at the insertion point and shifts the rest by one |
| Bookkeeping.InsertByDatePermutes | bizpy/src/bizpy/accounting.py:148-150 | inserting adds exactly the new transaction |
| Bookkeeping.InsertByDateSorted | bizpy/src/bizpy/accounting.py:150 | inserting into a date-sorted journal keeps it sorted |
| Bookkeeping.InsertAll | bizpy/src/bizpy/accounting.py:148-150 | `extend` then `sort`: the merged journal has one place for every old and every new transaction (`InsertAllSorted` and `InsertAllPermutes` prove it sorted and holding exactly those) |
| Bookkeeping.InsertAllSorted | bizpy/src/bizpy/accounting.py:148-150 | adding a whole group to a sorted journal leaves it sorted |
| Bookkeeping.InsertAllPermutes | bizpy/src/bizpy/accounting.py:148-150 | adding a group yields exactly the old and the new transactions, as a multiset |
| Bookkeeping.Next | bizpy/src/bizpy/accounting.py:156-158 | a processing step keeps a balance for every account |
| Bookkeeping.NextDone | bizpy/src/bizpy/accounting.py:156-158 | a processing step marks at most its own transaction processed, and only if it is due |
| Bookkeeping.Post | bizpy/src/bizpy/accounting.py:152-158 | a processing pass keeps a balance for every account |
| Bookkeeping.PostDone | bizpy/src/bizpy/accounting.py:155-158 | after a pass, a transaction is processed if and only if it was before or it is in the journal and due by the cutoff |
| Bookkeeping.PostLog | bizpy/src/bizpy/accounting.py:155-158 | a pass posts only due, previously unprocessed journal transactions, each at most once, and marks them processed |
| Bookkeeping.PostLogComplete | bizpy/src/bizpy/accounting.py:155-158 | conversely, every journal transaction not yet processed and dated on or before the cutoff is posted by the pass |
| Bookkeeping.PostSums | bizpy/src/bizpy/accounting.py:155-157 | if each balance was the sum of earlier postings, after a pass it is the sum of those and the pass's postings |
| Bookkeeping.PostExtends | bizpy/src/bizpy/accounting.py:152-158 | a pass extends the posting history without repeats, and every posted transaction ends up processed |
| Bookkeeping.PostNothingDue | bizpy/src/bizpy/accounting.py:156 | when everything due is already processed, a pass changes nothing |
| Bookkeeping.PostIdempotent | bizpy/src/bizpy/accounting.py:152-158 | processing twice with the same cutoff is the same as processing once |
| Bookkeeping.PostLeavesOtherAccounts | bizpy/src/bizpy/accounting.py:155-157 | an account with no transaction due by the cutoff keeps its balance |
| Bookkeeping.Business.constructor | bizpy/src/bizpy/accounting.py:136-146 | a new business has no shares, a zero balance for every account, an empty journal, unit price 100 and unit cost 40 |
| Bookkeeping.Business.AddTransactionGroup | bizpy/src/bizpy/accounting.py:148-150 | the journal becomes the stable merge of the group into it: still sorted, holding exactly the old and new transactions; balances are untouched |
| Bookkeeping.Business.PostIfDue | bizpy/src/bizpy/accounting.py:156-158 | one loop iteration performs exactly one processing step on the balances, the posting history and the flag |
| Bookkeeping.Business.ProcessTransactions | bizpy/src/bizpy/accounting.py:152-158 | balances and posting history become the result of the processing pass; exactly the previously processed or due transactions end up processed; every balance stays the sum of what was posted, each transaction at most once; with `PostLog` and `PostLogComplete`, the pass posts exactly the due, unprocessed journal transactions, so each balance grows by exactly their amounts |
| Bookkeeping.Business.AccountBalances | bizpy/src/bizpy/accounting.py:160-161 | every account has a balance, and it is the sum of the amounts posted to it |
| Finance.IndexInjective | bizpy/finance.py:56-64 | the four accounts are four distinct objects |
| Finance.DebitValue | bizpy/finance.py:25-38 | a debit raises what an account adds to net worth by the amount: an asset's value goes up, a liability's goes down |
| Finance.CreditValue | bizpy/finance.py:25-38 | a credit lowers what an account adds to net worth by the amount: an asset's value goes down, a liability's goes up |
| Finance.CreditUndoesDebit | bizpy/finance.py:25-38 | for either kind of account, a credit undoes a debit of the same amount and vice versa |
| Finance.DebitsAdd | bizpy/finance.py:25-38 | two debits (or credits) amount to one of their sum |
| Finance.DebitRaisesNetWorth | bizpy/finance.py:25-38 | a debit raises assets minus liabilities by the amount, whatever the account's kind |
| Finance.CreditLowersNetWorth | bizpy/finance.py:25-38 | a credit lowers assets minus liabilities by the amount, whatever the account's kind |
| Finance.Apply | bizpy/finance.py:105-107 | processing one transaction keeps all four accounts |
| Finance.ApplyAll | bizpy/finance.py:105-107 | the journal's transactions applied one after another in journal order, the ledger keeping its four accounts |
| Finance.ApplyKeepsNetWorth | bizpy/finance.py:104-107 | processing any transaction leaves assets minus liabilities unchanged |
| Finance.ApplyAllKeepsNetWorth | bizpy/finance.py:104-107 | processing any journal leaves assets minus liabilities unchanged |
| Finance.ApplyAllAppend | bizpy/finance.py:104-107 | processing two journals in turn equals processing their concatenation |
| Finance.ApplyBetween | bizpy/finance.py:105-107 | a transaction between two different accounts debits one, credits the other and leaves the rest alone |
| Finance.EquityEffect | bizpy/finance.py:74-83 | processing a raised equity adds the amount to cash and to shareholders' equity and nothing else |
| Finance.PurchaseEffect | bizpy/finance.py:85-102 | once both purchase transactions are processed, the payable is back where it was, inventory is up by the amount and cash is down by it |
| Finance.Business.constructor | bizpy/finance.py:66-72 | a new business has four zero accounts, no shares and an empty journal |
| Finance.Business.Debit | bizpy/finance.py:25-38 | only the debited account's slot changes, up for an asset and down for a liability |
| Finance.Business.Credit | bizpy/finance.py:25-38 | only the credited account's slot changes, down for an asset and up for a liability |
| Finance.Business.RaiseEquity | bizpy/finance.py:74-83 | shares grow by the new shares, and one cash/equity transaction is appended to the journal |
| Finance.Business.PurchaseInventory | bizpy/finance.py:85-102 | exactly two transactions are appended, in order: inventory/payable on the purchase date, then payable/cash when the terms run out |
| Finance.Business.Process | bizpy/finance.py:104-109 | the account values become the whole old journal applied in order, whatever the dates; net worth is unchanged; the journal is emptied |

## Left out

- `present_value` (bizpy/src/bizpy/accounting.py:164-166) and `Transaction.pv` (bizpy/finance.py:48-54): they use floating-point exponentiation. `pv` also cannot run as written: when `current_date` is left `None` the default branch assigns an unused `current_datetime`, and `.total_seconds()` is then called on `None` (or, when a date is passed, on a `date`, which has no such method).
- `main`, the pretty-printed tables, pandas, the YAML trip files and the command line of `split.py`: these are I/O.
- Fresh uuid4 identifiers are parameters (`entryUid`, `uids`, `groupUid`). The model does not state that they are unique.
- `process_transactions` defaults its cutoff to `date.today()`. The clock is left out, so the cutoff is always passed in.
- Dates are whole numbers of days. `purchase_inventory`'s `timedelta` terms are a number of days too.
- Decimal division uses a context precision of 28 significant digits. The model divides exactly, so a quotient whose 28-digit rounding lands on a cent tie can differ.
- bizpy amounts are Python floats. `Bookkeeping` uses integers and `Finance` uses exact reals, so float rounding is not modelled.
- `Transaction.as_dict` and the getters of bizpy's `Transaction` only return fields, which are plain constant fields here. `__le__` and `__lt__` are the date comparisons inside `Sorted` and `InsertionPoint`.
- `Business._events` is never appended to by the source. It is kept as a field that no operation changes.
- Bookkeeping.Business.AddTransactionGroup: proves the journal sorted and a permutation of old plus new. That the result is exactly what Timsort returns is not proved; the model argues it through stable insertion.
- Finance.Business: the four account objects become slots of one array. A `Transaction` naming an account by reference becomes one naming it by `AccountId`.
- Ledger.NewEntry: `Decimal.quantize` (moneypy/src/moneypy/accounting.py:83-85) raises `InvalidOperation` when the quantized amount needs more than the 28 digits of the default decimal context, that is for amounts of at least 10^26 in magnitude. The model's entry construction never fails.
- Splitting.Split: for the same reason the quantization of the cost and of the share (moneypy/src/moneypy/split.py:53-55) raises `InvalidOperation` for costs of at least 10^26 in magnitude. The model's split does not fail there.
- Bookkeeping.Business.AccountBalances: `get_account_balances` (bizpy/src/bizpy/accounting.py:160-161) returns the business's own balance dictionary, so the caller holds a live alias. The model returns the balance map as a value, a snapshot. Later processing showing through the caller's reference, and writes through that reference changing the business's balances, are not modelled.
- Ledger.NewTransaction: the entry sum (moneypy/src/moneypy/accounting.py:130-131) rounds to 28 significant digits, and quantizing a total of at least 10^26 raises `InvalidOperation`. The model sums exactly and reports `OutOfBalance`, so for entries near 10^26 it can accept a transaction the source rejects, or report a different error.
- Ledger.NewTransaction: the error message formats the imbalance with two decimals. The error here carries the imbalance in cents and the description instead of the formatted text.

## Findings

| source | as written | input that shows it | evidently intended | confidence | as-written member | corrected member |
|---|---|---|---|---|---|---|
| bizpy/src/bizpy/accounting.py:109 | `Payroll` posts `+payroll_expense` to `RETAINED_EARNINGS` | payroll expense 100, checks 100: cash falls by 100 while retained earnings rise by 100, so assets plus expenses minus liabilities, equity and revenue drift by -200 | the expense reduces retained earnings (`-payroll_expense`), so the group keeps the accounting equation like every other group | medium, not executed | Bookkeeping.PayrollBalancedOnlyWithoutExpense | Bookkeeping.CorrectedPayrollBalanced |

`Bookkeeping.PayrollPostings` is the code as written and `Bookkeeping.PayrollUnbalancedExample`
computes the drift of the concrete payroll above. `Bookkeeping.CorrectedPayrollPostings` is
what the code evidently intends, and the `TransactionGroup.Payroll` constructor builds it.
