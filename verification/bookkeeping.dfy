/** The bizpy business journal: transactions posted to account balances, grouped by the
    business events that create them, processed once each up to a cutoff date. */
module Bookkeeping {
  import opened Results

  /** Opaque identifiers (the source draws them from uuid4). bizpy shares no code with
      moneypy, so its identifiers are kept apart from `Ledger.Uid`. */
  type Uid = nat

  /** The `Account` codes. */
  datatype AccountCode =
    | Cash | Inventory | AccountsReceivable | OtherAssets | Ppe
    | GeneralAdministrative | SalesMarketing | ResearchDevelopment
    | AccountsPayable | RetainedEarnings | AccruedExpenses | ShortTermDebt | LongTermDebt
    | ShareholdersEquity
    | Revenue
  {
    /** The integer value of the enumeration member. */
    function Code(): (value: int) {
      match this
      case Cash => 100
      case Inventory => 101
      case AccountsReceivable => 102
      case OtherAssets => 103
      case Ppe => 104
      case GeneralAdministrative => 200
      case SalesMarketing => 201
      case ResearchDevelopment => 202
      case AccountsPayable => 301
      case RetainedEarnings => 302
      case AccruedExpenses => 303
      case ShortTermDebt => 304
      case LongTermDebt => 300
      case ShareholdersEquity => 400
      case Revenue => 500
    }

    /** Asset and expense accounts sit on the left of the accounting equation. */
    predicate DebitNormal() {
      Code() < 300
    }
  }

  /** No two account codes share a value, so keying balances by code loses nothing. */
  lemma CodesDistinct(a: AccountCode, b: AccountCode)
    ensures a.Code() == b.Code() ==> a == b
  {}

  const AllCodes: set<AccountCode> :=
    {Cash, Inventory, AccountsReceivable, OtherAssets, Ppe,
     GeneralAdministrative, SalesMarketing, ResearchDevelopment,
     AccountsPayable, RetainedEarnings, AccruedExpenses, ShortTermDebt, LongTermDebt,
     ShareholdersEquity, Revenue}

  lemma EveryCodeListed(c: AccountCode)
    ensures c in AllCodes
  {
    match c
    case Cash => case Inventory => case AccountsReceivable => case OtherAssets => case Ppe =>
    case GeneralAdministrative => case SalesMarketing => case ResearchDevelopment =>
    case AccountsPayable => case RetainedEarnings => case AccruedExpenses =>
    case ShortTermDebt => case LongTermDebt => case ShareholdersEquity => case Revenue =>
  }

  /** What a transaction posts: an amount to one account on one date. */
  datatype Posting = Posting(date: int, account: AccountCode, amount: int)

  /** A journal transaction. Only its `processed` flag ever changes. */
  class Transaction {
    const date: int
    const account: AccountCode
    const amount: int
    const uid: Uid
    const groupUid: Option<int>
    var processed: bool

    constructor (date: int, account: AccountCode, amount: int, uid: Uid, groupUid: Option<int>)
      ensures this.date == date && this.account == account && this.amount == amount
      ensures this.uid == uid && this.groupUid == groupUid
      ensures !processed
    {
      this.date := date;
      this.account := account;
      this.amount := amount;
      this.uid := uid;
      this.groupUid := groupUid;
      processed := false;
    }

    function AsPosting(): (p: Posting) {
      Posting(date, account, amount)
    }

    /** Sets the flag; no operation ever clears it. */
    method MarkProcessed()
      modifies this
      ensures processed
    {
      processed := true;
    }
  }

  function Postings(ts: seq<Transaction>): (ps: seq<Posting>)
    ensures |ps| == |ts| && forall i :: 0 <= i < |ts| ==> ps[i] == ts[i].AsPosting()
  {
    seq(|ts|, i requires 0 <= i < |ts| => ts[i].AsPosting())
  }

  // The postings each kind of transaction group appends, in order.

  function StockIssuePostings(shares: int, sharePrice: int, date: int): (ps: seq<Posting>) {
    [Posting(date, ShareholdersEquity, shares * sharePrice), Posting(date, Cash, shares * sharePrice)]
  }

  /** Payroll as written: the expense is ADDED to retained earnings. */
  function PayrollPostings(date: int, payrollExpense: int, payrollChecks: int): (ps: seq<Posting>)
    ensures EquationDrift(ps) == -2 * payrollExpense
  {
    DriftOfThree(Posting(date, Cash, -1 * payrollChecks),
                 Posting(date, AccruedExpenses, payrollExpense - payrollChecks),
                 Posting(date, RetainedEarnings, payrollExpense));
    [Posting(date, Cash, -1 * payrollChecks),
     Posting(date, AccruedExpenses, payrollExpense - payrollChecks),
     Posting(date, RetainedEarnings, payrollExpense)]
  }

  /** Payroll as evidently intended: the expense reduces retained earnings. */
  function CorrectedPayrollPostings(date: int, payrollExpense: int, payrollChecks: int): (ps: seq<Posting>) {
    [Posting(date, Cash, -1 * payrollChecks),
     Posting(date, AccruedExpenses, payrollExpense - payrollChecks),
     Posting(date, RetainedEarnings, -payrollExpense)]
  }

  /** The source ignores the requested amount and always books the same fixed loan. */
  function LoanPostings(amount: int, date: int): (ps: seq<Posting>) {
    [Posting(date, ShortTermDebt, 100000), Posting(date, LongTermDebt, 900000), Posting(date, Cash, 1000000)]
  }

  function CapitalPurchasePostings(date: int, amount: int): (ps: seq<Posting>) {
    [Posting(date, Cash, -1 * amount), Posting(date, Ppe, amount)]
  }

  function ProductSalePostings(date: int, revenue: int, cogs: int): (ps: seq<Posting>) {
    [Posting(date, Cash, revenue), Posting(date, Inventory, -1 * cogs), Posting(date, RetainedEarnings, revenue - cogs)]
  }

  /** How much one posting moves the left side of the accounting equation
      (assets + expenses = liabilities + equity + revenue) against the right side. */
  function Drift(p: Posting): (d: int) {
    if p.account.DebitNormal() then p.amount else -p.amount
  }

  function EquationDrift(ps: seq<Posting>): (drift: int)
    decreases |ps|
  {
    if ps == [] then 0 else EquationDrift(ps[..|ps| - 1]) + Drift(ps[|ps| - 1])
  }

  /** The postings keep the accounting equation. */
  predicate Balanced(ps: seq<Posting>) {
    EquationDrift(ps) == 0
  }

  lemma DriftOfTwo(a: Posting, b: Posting)
    ensures EquationDrift([a, b]) == Drift(a) + Drift(b)
  {
    assert [a, b][..1] == [a];
    assert [a][..0] == [];
    assert EquationDrift([a]) == EquationDrift([]) + Drift(a);
  }

  lemma DriftOfThree(a: Posting, b: Posting, c: Posting)
    ensures EquationDrift([a, b, c]) == Drift(a) + Drift(b) + Drift(c)
  {
    assert [a, b, c][..2] == [a, b];
    DriftOfTwo(a, b);
  }

  lemma StockIssueBalanced(shares: int, sharePrice: int, date: int)
    ensures Balanced(StockIssuePostings(shares, sharePrice, date))
  {
    DriftOfTwo(Posting(date, ShareholdersEquity, shares * sharePrice), Posting(date, Cash, shares * sharePrice));
  }

  /** As written, a payroll keeps the equation only when there is no payroll expense. */
  lemma PayrollBalancedOnlyWithoutExpense(date: int, payrollExpense: int, payrollChecks: int)
    ensures Balanced(PayrollPostings(date, payrollExpense, payrollChecks)) <==> payrollExpense == 0
  {
    DriftOfThree(Posting(date, Cash, -1 * payrollChecks),
                 Posting(date, AccruedExpenses, payrollExpense - payrollChecks),
                 Posting(date, RetainedEarnings, payrollExpense));
  }

  /** A concrete payroll, 100 of expense all paid by check, that unbalances the books by 200. */
  lemma PayrollUnbalancedExample()
    ensures EquationDrift(PayrollPostings(0, 100, 100)) == -200
  {
    DriftOfThree(Posting(0, Cash, -100), Posting(0, AccruedExpenses, 0), Posting(0, RetainedEarnings, 100));
  }

  lemma CorrectedPayrollBalanced(date: int, payrollExpense: int, payrollChecks: int)
    ensures Balanced(CorrectedPayrollPostings(date, payrollExpense, payrollChecks))
  {
    DriftOfThree(Posting(date, Cash, -1 * payrollChecks),
                 Posting(date, AccruedExpenses, payrollExpense - payrollChecks),
                 Posting(date, RetainedEarnings, -payrollExpense));
  }

  /** A loan books 0.1M short-term and 0.9M long-term debt against 1M of cash, whatever it is asked for. */
  lemma LoanIsFixed(amount: int, other: int, date: int)
    ensures LoanPostings(amount, date) == LoanPostings(other, date)
    ensures Balanced(LoanPostings(amount, date))
  {
    DriftOfThree(Posting(date, ShortTermDebt, 100000), Posting(date, LongTermDebt, 900000), Posting(date, Cash, 1000000));
  }

  lemma CapitalPurchaseBalanced(date: int, amount: int)
    ensures Balanced(CapitalPurchasePostings(date, amount))
  {
    DriftOfTwo(Posting(date, Cash, -1 * amount), Posting(date, Ppe, amount));
  }

  lemma ProductSaleBalanced(date: int, revenue: int, cogs: int)
    ensures Balanced(ProductSalePostings(date, revenue, cogs))
  {
    DriftOfThree(Posting(date, Cash, revenue), Posting(date, Inventory, -1 * cogs),
                 Posting(date, RetainedEarnings, revenue - cogs));
  }

  /** A business event: a group of transactions that share the group's identifier. */
  class TransactionGroup {
    const groupUid: int
    var transactions: seq<Transaction>

    /** Every transaction of the group carries the group's identifier. */
    ghost predicate Stamped()
      reads this
    {
      forall t :: t in transactions ==> t.groupUid == Some(groupUid)
    }

    /** The group's transactions are new, distinct and unprocessed. */
    ghost predicate Pristine()
      reads this, transactions
    {
      && (forall t :: t in transactions ==> !t.processed)
      && (forall i, j :: 0 <= i < j < |transactions| ==> transactions[i] != transactions[j])
    }

    constructor Empty(groupUid: int)
      ensures this.groupUid == groupUid && transactions == []
    {
      this.groupUid := groupUid;
      transactions := [];
    }

    method AppendTransaction(date: int, account: AccountCode, amount: int, uid: Uid)
      modifies this
      ensures |transactions| == |old(transactions)| + 1
      ensures transactions[..|old(transactions)|] == old(transactions)
      ensures fresh(transactions[|old(transactions)|])
      ensures transactions[|old(transactions)|].AsPosting() == Posting(date, account, amount)
      ensures transactions[|old(transactions)|].groupUid == Some(groupUid)
      ensures transactions[|old(transactions)|].uid == uid
      ensures !transactions[|old(transactions)|].processed
    {
      var t := new Transaction(date, account, amount, uid, Some(groupUid));
      transactions := transactions + [t];
    }
  

    /** Shared by every group constructor: what the group holds once built. */
    ghost predicate Holds(ps: seq<Posting>)
      reads this, transactions
    {
      Postings(transactions) == ps && Stamped() && Pristine()
    }

    constructor CommonStockIssue(shares: int, sharePrice: int, date: int, groupUid: int, uids: nat -> Uid)
      ensures this.groupUid == groupUid && Holds(StockIssuePostings(shares, sharePrice, date))
      ensures forall t :: t in transactions ==> fresh(t)
    {
      this.groupUid := groupUid;
      transactions := [];
      new;
      AppendTransaction(date, ShareholdersEquity, shares * sharePrice, uids(0));
      AppendTransaction(date, Cash, shares * sharePrice, uids(1));
    }

    /** Payroll with the retained-earnings leg corrected to take the expense off. */
    constructor Payroll(date: int, payrollExpense: int, payrollChecks: int, groupUid: int, uids: nat -> Uid)
      ensures this.groupUid == groupUid && Holds(CorrectedPayrollPostings(date, payrollExpense, payrollChecks))
      ensures forall t :: t in transactions ==> fresh(t)
    {
      this.groupUid := groupUid;
      transactions := [];
      new;
      AppendTransaction(date, Cash, -1 * payrollChecks, uids(0));
      AppendTransaction(date, AccruedExpenses, payrollExpense - payrollChecks, uids(1));
      AppendTransaction(date, RetainedEarnings, -payrollExpense, uids(2));
    }

    constructor Loan(amount: int, date: int, groupUid: int, uids: nat -> Uid)
      ensures this.groupUid == groupUid && Holds(LoanPostings(amount, date))
      ensures forall t :: t in transactions ==> fresh(t)
    {
      this.groupUid := groupUid;
      transactions := [];
      new;
      AppendTransaction(date, ShortTermDebt, 100000, uids(0));
      AppendTransaction(date, LongTermDebt, 900000, uids(1));
      AppendTransaction(date, Cash, 1000000, uids(2));
    }

    constructor CapitalPurchase(date: int, amount: int, groupUid: int, uids: nat -> Uid)
      ensures this.groupUid == groupUid && Holds(CapitalPurchasePostings(date, amount))
      ensures forall t :: t in transactions ==> fresh(t)
    {
      this.groupUid := groupUid;
      transactions := [];
      new;
      AppendTransaction(date, Cash, -1 * amount, uids(0));
      AppendTransaction(date, Ppe, amount, uids(1));
    }

    constructor ProductSale(date: int, revenue: int, cogs: int, groupUid: int, uids: nat -> Uid)
      ensures this.groupUid == groupUid && Holds(ProductSalePostings(date, revenue, cogs))
      ensures forall t :: t in transactions ==> fresh(t)
    {
      this.groupUid := groupUid;
      transactions := [];
      new;
      AppendTransaction(date, Cash, revenue, uids(0));
      AppendTransaction(date, Inventory, -1 * cogs, uids(1));
      AppendTransaction(date, RetainedEarnings, revenue - cogs, uids(2));
    }
  }

  // ---------------------------------------------------------------------------
  // The journal: kept sorted by date, new groups inserted stably.

  /** Non-decreasing by date. */
  predicate Sorted(ts: seq<Transaction>) {
    forall i, j :: 0 <= i < j < |ts| ==> ts[i].date <= ts[j].date
  }

  /** Where a stable sort puts a new transaction dated `date`: after every earlier
      transaction whose date is not later. */
  function InsertionPoint(ts: seq<Transaction>, date: int): (k: nat)
    ensures k <= |ts|
    ensures forall j :: k <= j < |ts| ==> ts[j].date > date
    ensures k > 0 ==> ts[k - 1].date <= date
    decreases |ts|
  {
    if ts == [] || ts[|ts| - 1].date <= date then |ts| else InsertionPoint(ts[..|ts| - 1], date)
  }

  function InsertByDate(ts: seq<Transaction>, t: Transaction): (r: seq<Transaction>) {
    var k := InsertionPoint(ts, t.date);
    ts[..k] + [t] + ts[k..]
  }

  /** Inserting puts the new transaction just before the later-dated tail and keeps
      everything else in order. */
  lemma InsertByDateAt(ts: seq<Transaction>, t: Transaction)
    ensures var k, r := InsertionPoint(ts, t.date), InsertByDate(ts, t);
            && |r| == |ts| + 1
            && (forall i :: 0 <= i < k ==> r[i] == ts[i])
            && r[k] == t
            && (forall i :: k < i < |r| ==> r[i] == ts[i - 1])
  {
  }

  /** Inserting adds exactly the new transaction. */
  lemma InsertByDatePermutes(ts: seq<Transaction>, t: Transaction)
    ensures multiset(InsertByDate(ts, t)) == multiset(ts) + multiset{t}
  {
    var k := InsertionPoint(ts, t.date);
    assert ts == ts[..k] + ts[k..];
  }

  /** Inserting into a sorted journal keeps it sorted. */
  lemma InsertByDateSorted(ts: seq<Transaction>, t: Transaction)
    requires Sorted(ts)
    ensures Sorted(InsertByDate(ts, t))
  {
    var k := InsertionPoint(ts, t.date);
    var r := InsertByDate(ts, t);
    InsertByDateAt(ts, t);
    forall i, j | 0 <= i < j < |r|
      ensures r[i].date <= r[j].date
    {
      if j == k {
        assert ts[i].date <= ts[k - 1].date;
      }
    }
  }

  /** The journal after `extend` and `sort`: each new transaction inserted in turn. */
  function InsertAll(ts: seq<Transaction>, added: seq<Transaction>): (r: seq<Transaction>)
    ensures |r| == |ts| + |added|
    decreases |added|
  {
    if added == [] then ts else InsertByDate(InsertAll(ts, added[..|added| - 1]), added[|added| - 1])
  }

  /** The journal after adding a group is sorted. */
  lemma {:induction false} InsertAllSorted(ts: seq<Transaction>, added: seq<Transaction>)
    requires Sorted(ts)
    ensures Sorted(InsertAll(ts, added))
    decreases |added|
  {
    if added != [] {
      var init := added[..|added| - 1];
      InsertAllSorted(ts, init);
      InsertByDateSorted(InsertAll(ts, init), added[|added| - 1]);
    }
  }

  /** The journal after adding a group holds exactly the old and the new transactions. */
  lemma {:induction false} InsertAllPermutes(ts: seq<Transaction>, added: seq<Transaction>)
    ensures multiset(InsertAll(ts, added)) == multiset(ts) + multiset(added)
    decreases |added|
  {
    if added != [] {
      var init := added[..|added| - 1];
      var last := added[|added| - 1];
      InsertAllPermutes(ts, init);
      InsertByDatePermutes(InsertAll(ts, init), last);
      assert added == init + [last];
    }
  }

  lemma InsertAllStep(ts: seq<Transaction>, added: seq<Transaction>, i: nat)
    requires i < |added|
    ensures InsertAll(ts, added[..i + 1]) == InsertByDate(InsertAll(ts, added[..i]), added[i])
  {
    assert added[..i + 1][..i] == added[..i];
  }

  // ---------------------------------------------------------------------------
  // Posting the journal up to a cutoff date.

  /** Balances by account, the transactions already posted (processed), and the
      transactions posted by this pass in the order they were posted. */
  datatype Books = Books(balances: map<AccountCode, int>, done: set<Transaction>, log: seq<Transaction>)

  /** Every account code has a balance. */
  predicate Complete(balances: map<AccountCode, int>) {
    forall c: AccountCode :: c in balances
  }

  /** One step of `process_transactions`: a transaction not yet processed and dated on
      or before `date` adds its amount to its account and becomes processed. */
  function Next(b: Books, t: Transaction, date: int): (r: Books)
    requires Complete(b.balances)
    ensures Complete(r.balances)
  {
    if t !in b.done && t.date <= date then
      Books(b.balances[t.account := b.balances[t.account] + t.amount], b.done + {t}, b.log + [t])
    else b
  }

  /** A step marks at most its own transaction processed. */
  lemma NextDone(b: Books, t: Transaction, date: int)
    requires Complete(b.balances)
    ensures forall u :: u in Next(b, t, date).done <==> u in b.done || (u == t && t.date <= date)
  {
  }

  /** `process_transactions`: one step per journal transaction, in journal order. */
  ghost function Post(ts: seq<Transaction>, b: Books, date: int): (r: Books)
    requires Complete(b.balances)
    ensures Complete(r.balances)
    decreases |ts|
  {
    if ts == [] then b else Next(Post(ts[..|ts| - 1], b, date), ts[|ts| - 1], date)
  }

  /** Afterwards exactly the transactions processed before or dated on or before the cutoff are processed. */
  lemma {:induction false} PostDone(ts: seq<Transaction>, b: Books, date: int)
    requires Complete(b.balances)
    ensures forall t :: t in Post(ts, b, date).done <==> t in b.done || (t in ts && t.date <= date)
    decreases |ts|
  {
    if ts != [] {
      var init := ts[..|ts| - 1];
      PostDone(init, b, date);
      assert forall t :: t in ts <==> t in init || t == ts[|ts| - 1];
    }
  }

  /** A pass posts only due transactions of the journal that were not processed yet,
      each of them once. */
  lemma {:induction false} PostLog(ts: seq<Transaction>, b: Books, date: int)
    requires Complete(b.balances) && b.log == []
    ensures var r := Post(ts, b, date);
            && (forall t :: t in r.log ==> t in ts && t !in b.done && t.date <= date && t in r.done)
            && NoRepeats(r.log)
    decreases |ts|
  {
    if ts != [] {
      var init := ts[..|ts| - 1];
      PostLog(init, b, date);
      PostDone(init, b, date);
      var prev := Post(init, b, date);
      var last := ts[|ts| - 1];
      assert forall t :: t in init ==> t in ts;
      if last !in prev.done && last.date <= date {
        var r := Post(ts, b, date);
        assert r.log == prev.log + [last] && r.done == prev.done + {last};
        forall t | t in r.log
          ensures t in ts && t !in b.done && t.date <= date && t in r.done
        {
          if t != last {
            assert t in prev.log;
          }
        }
      }
    }
  }

  /** Conversely, a pass posts every journal transaction that was not processed yet and
      is dated on or before the cutoff. */
  lemma {:induction false} PostLogComplete(ts: seq<Transaction>, b: Books, date: int)
    requires Complete(b.balances)
    ensures forall t :: t in ts && t !in b.done && t.date <= date ==> t in Post(ts, b, date).log
    decreases |ts|
  {
    if ts != [] {
      var init := ts[..|ts| - 1];
      var last := ts[|ts| - 1];
      PostLogComplete(init, b, date);
      PostDone(init, b, date);
      var prev := Post(init, b, date);
      var r := Post(ts, b, date);
      assert forall t :: t in prev.log ==> t in r.log;
      forall t | t in ts && t !in b.done && t.date <= date
        ensures t in r.log
      {
        if t !in init {
          assert t == last && t !in prev.done;
        }
      }
    }
  }

  /** Each balance grows by exactly what the pass posts to it. */
  lemma {:induction false} PostSums(ts: seq<Transaction>, b: Books, date: int, earlier: seq<Transaction>)
    requires Complete(b.balances) && b.log == []
    requires forall c: AccountCode :: b.balances[c] == SumOn(earlier, c)
    ensures forall c: AccountCode :: Post(ts, b, date).balances[c] == SumOn(earlier + Post(ts, b, date).log, c)
    decreases |ts|
  {
    if ts == [] {
      assert earlier + [] == earlier;
    } else {
      var init := ts[..|ts| - 1];
      PostSums(init, b, date, earlier);
      var prev := Post(init, b, date);
      var t := ts[|ts| - 1];
      assert forall c: AccountCode :: prev.balances[c] == SumOn(earlier + prev.log, c);
      if t !in prev.done && t.date <= date {
        assert Post(ts, b, date).balances == prev.balances[t.account := prev.balances[t.account] + t.amount];
        var before := earlier + prev.log;
        assert earlier + (prev.log + [t]) == before + [t];
        assert (before + [t])[..|before|] == before;
        forall c: AccountCode
          ensures Post(ts, b, date).balances[c] == SumOn(before + [t], c)
        {
          assert SumOn(before + [t], c) == SumOn(before, c) + (if t.account == c then t.amount else 0);
        }
      }
    }
  }

  /** One more transaction of the journal is one more step. */
  lemma PostStep(ts: seq<Transaction>, b: Books, date: int, i: nat)
    requires Complete(b.balances) && i < |ts|
    ensures Post(ts[..i + 1], b, date) == Next(Post(ts[..i], b, date), ts[i], date)
  {
    assert ts[..i + 1][..i] == ts[..i];
  }

  /** What a whole pass guarantees to a business whose balances were the sums of the
      `earlier` postings: the balances become the sums of `earlier` followed by this
      pass's postings, nothing is posted twice, and every posting is processed. */
  lemma PostExtends(ts: seq<Transaction>, b: Books, date: int, earlier: seq<Transaction>)
    requires Complete(b.balances) && b.log == []
    requires forall c: AccountCode :: b.balances[c] == SumOn(earlier, c)
    requires NoRepeats(earlier) && (forall t :: t in earlier ==> t in b.done)
    requires forall t :: t in b.done ==> t in ts
    ensures var r := Post(ts, b, date);
            && (forall c: AccountCode :: r.balances[c] == SumOn(earlier + r.log, c))
            && NoRepeats(earlier + r.log)
            && (forall t :: t in earlier + r.log ==> t in ts && t in r.done)
            && (forall t :: t in r.done <==> t in b.done || (t in ts && t.date <= date))
  {
    var r := Post(ts, b, date);
    PostDone(ts, b, date);
    PostLog(ts, b, date);
    PostSums(ts, b, date, earlier);
    JoinNoRepeats(earlier, r.log, b.done);
  }

  /** When nothing is due, posting changes nothing. */
  lemma {:induction false} PostNothingDue(ts: seq<Transaction>, b: Books, date: int)
    requires Complete(b.balances)
    requires forall i :: 0 <= i < |ts| && ts[i].date <= date ==> ts[i] in b.done
    ensures Post(ts, b, date) == b
    decreases |ts|
  {
    if ts != [] {
      PostNothingDue(ts[..|ts| - 1], b, date);
    }
  }

  /** Processing twice with the same cutoff is the same as processing once. */
  lemma PostIdempotent(ts: seq<Transaction>, b: Books, date: int)
    requires Complete(b.balances)
    ensures Post(ts, Post(ts, b, date), date) == Post(ts, b, date)
  {
    var r := Post(ts, b, date);
    PostDone(ts, b, date);
    forall i | 0 <= i < |ts| && ts[i].date <= date
      ensures ts[i] in r.done
    {
      assert ts[i] in ts;
    }
    PostNothingDue(ts, r, date);
  }

  /** An account with no transaction due by the cutoff keeps its balance. */
  lemma {:induction false} PostLeavesOtherAccounts(ts: seq<Transaction>, b: Books, date: int, c: AccountCode)
    requires Complete(b.balances)
    requires forall i :: 0 <= i < |ts| && ts[i].account == c ==> ts[i].date > date
    ensures Post(ts, b, date).balances[c] == b.balances[c]
    decreases |ts|
  {
    if ts != [] {
      PostLeavesOtherAccounts(ts[..|ts| - 1], b, date, c);
    }
  }

  /** No transaction occurs twice. */
  predicate NoRepeats(ts: seq<Transaction>) {
    forall i, j :: 0 <= i < j < |ts| ==> ts[i] != ts[j]
  }

  /** Joining two repeat-free logs with nothing in common gives a repeat-free log. */
  lemma JoinNoRepeats(a: seq<Transaction>, b: seq<Transaction>, done: set<Transaction>)
    requires NoRepeats(a) && NoRepeats(b)
    requires forall t :: t in a ==> t in done
    requires forall t :: t in b ==> t !in done
    ensures NoRepeats(a + b)
  {
    var ab := a + b;
    forall i, j | 0 <= i < j < |ab|
      ensures ab[i] != ab[j]
    {
      if i < |a| && j >= |a| {
        assert ab[i] in a && ab[j] in b;
      } else if i >= |a| {
        assert ab[i] == b[i - |a|] && ab[j] == b[j - |a|];
      }
    }
  }

  /** Sum of the amounts the given transactions post to account `c`. */
  function SumOn(ts: seq<Transaction>, c: AccountCode): (total: int)
    decreases |ts|
  {
    if ts == [] then 0
    else SumOn(ts[..|ts| - 1], c) + (if ts[|ts| - 1].account == c then ts[|ts| - 1].amount else 0)
  }

  // ---------------------------------------------------------------------------

  /** The business: account balances and the date-sorted journal. */
  class Business {
    var shares: int
    var accounts: map<AccountCode, int>
    var transactions: seq<Transaction>
    var events: seq<TransactionGroup>
    const unitPrice: int
    const unitCogs: int
    /** The transactions this business has posted, in posting order. */
    ghost var posted: seq<Transaction>

    /** Every balance is the sum of what this business has posted to it, each
        posted transaction exactly once, and the journal stays sorted. */
    ghost predicate Valid()
      reads this, posted
    {
      && Complete(accounts)
      && Sorted(transactions)
      && NoRepeats(posted)
      && (forall t :: t in posted ==> t in transactions && t.processed)
      && (forall c: AccountCode :: accounts[c] == SumOn(posted, c))
    }

    /** The transactions of the journal that are processed. */
    ghost function ProcessedSet(): (done: set<Transaction>)
      reads this, transactions
    {
      set t | t in transactions && t.processed
    }

    constructor ()
      ensures Valid()
      ensures forall c: AccountCode :: accounts[c] == 0
      ensures shares == 0 && transactions == [] && events == [] && posted == []
      ensures unitPrice == 100 && unitCogs == 40
    {
      shares := 0;
      accounts := map c | c in AllCodes :: 0;
      transactions := [];
      events := [];
      unitPrice := 100;
      unitCogs := 40;
      posted := [];
      new;
      forall c: AccountCode
        ensures c in accounts
      {
        EveryCodeListed(c);
      }
    }

    /** `add_transaction_group`: append the group's transactions and re-sort by date. */
    method AddTransactionGroup(group: TransactionGroup)
      requires Valid()
      modifies this
      ensures Valid()
      ensures transactions == InsertAll(old(transactions), group.transactions)
      ensures multiset(transactions) == multiset(old(transactions)) + multiset(group.transactions)
      ensures accounts == old(accounts) && posted == old(posted)
      ensures shares == old(shares) && events == old(events)
    {
      var added := group.transactions;
      ghost var before := transactions;
      assert forall t :: t in posted ==> t in before;
      var i := 0;
      while i < |added|
        invariant 0 <= i <= |added|
        invariant transactions == InsertAll(old(transactions), added[..i])
        invariant accounts == old(accounts) && posted == old(posted)
        invariant shares == old(shares) && events == old(events)
      {
        InsertAllStep(old(transactions), added, i);
        transactions := InsertByDate(transactions, added[i]);
        i := i + 1;
      }
      assert added[..i] == added;
      InsertAllSorted(old(transactions), added);
      InsertAllPermutes(old(transactions), added);
      forall t | t in posted
        ensures t in transactions
      {
        assert t in before;
        assert t in multiset(before);
        assert t in multiset(transactions);
      }
    }

    /** One pass of the `process_transactions` loop: post `t` if it is due and not yet
        processed. `books` is the pass so far and `earlier` what was posted before it. */
    method PostIfDue(t: Transaction, date: int, ghost books: Books, ghost earlier: seq<Transaction>)
      requires Complete(books.balances) && accounts == books.balances && posted == earlier + books.log
      requires t.processed <==> t in books.done
      modifies this, t
      ensures accounts == Next(books, t, date).balances
      ensures posted == earlier + Next(books, t, date).log
      ensures t.processed <==> t in Next(books, t, date).done
      ensures transactions == old(transactions) && shares == old(shares) && events == old(events)
    {
      if !t.processed && t.date <= date {
        accounts := accounts[t.account := accounts[t.account] + t.amount];
        t.MarkProcessed();
        posted := posted + [t];
      }
    }

    /** `process_transactions`: post every unprocessed transaction dated on or before
        `date`, each exactly once, and mark it processed. */
    method ProcessTransactions(date: int)
      requires Valid()
      modifies this, transactions
      ensures Valid()
      ensures transactions == old(transactions) && shares == old(shares) && events == old(events)
      ensures var r := Post(transactions, Books(old(accounts), old(ProcessedSet()), []), date);
              accounts == r.balances && posted == old(posted) + r.log
      ensures forall t :: t in transactions ==> (t.processed <==> old(t.processed) || t.date <= date)
    {
      ghost var start := Books(accounts, ProcessedSet(), []);
      assert forall t :: t in posted ==> t in start.done;
      var ts := transactions;
      ghost var books := start;
      var i := 0;
      while i < |ts|
        invariant 0 <= i <= |ts|
        invariant transactions == ts && shares == old(shares) && events == old(events)
        invariant books == Post(ts[..i], start, date)
        invariant accounts == books.balances && posted == old(posted) + books.log
        invariant forall t :: t in ts ==> (t.processed <==> t in books.done)
      {
        var t := ts[i];
        PostStep(ts, start, date, i);
        PostIfDue(t, date, books, old(posted));
        NextDone(books, t, date);
        books := Next(books, t, date);
        i := i + 1;
      }
      assert ts[..i] == ts;
      PostExtends(ts, start, date, old(posted));
    }

    /** `get_account_balances`. */
    function AccountBalances(): (m: map<AccountCode, int>)
      reads this, posted
      requires Valid()
      ensures Complete(m)
      ensures forall c: AccountCode :: m[c] == SumOn(posted, c)
    {
      accounts
    }
  }
}
