// The asset/liability ledger of the small business simulation: four accounts whose
// debit and credit move the value in opposite directions depending on the kind of
// account, and a journal of transactions that `process` applies and then drains.

module Finance {
  import opened Results

  /** Asset accounts grow when debited; liability accounts grow when credited. */
  datatype Kind = Asset | Liability

  /** The four accounts of the ledger, each with its slot in the value array. */
  datatype AccountId = Inventory | Cash | ShareholdersEquity | AccountsPayable {
    function Index(): (i: nat)
      ensures i < AccountCount
    {
      match this
      case Inventory => 0
      case Cash => 1
      case ShareholdersEquity => 2
      case AccountsPayable => 3
    }

    function Kind(): (k: Kind) {
      match this
      case Inventory => Asset
      case Cash => Asset
      case ShareholdersEquity => Liability
      case AccountsPayable => Liability
    }
  }

  const AccountCount: nat := 4

  /** Distinct accounts occupy distinct slots. */
  lemma IndexInjective(a: AccountId, b: AccountId)
    ensures a.Index() == b.Index() <==> a == b
  {
  }

  /** An account's value as it counts towards net worth: assets add, liabilities subtract. */
  function SignOf(kind: Kind, value: real): (s: real) {
    match kind
    case Asset => value
    case Liability => -value
  }

  /** The value of an account of kind `kind` after a debit of `amount`: a debit raises
      what the account adds to net worth by the amount. */
  function DebitValue(kind: Kind, value: real, amount: real): (r: real)
    ensures SignOf(kind, r) == SignOf(kind, value) + amount
  {
    match kind
    case Asset => value + amount
    case Liability => value - amount
  }

  /** The value of an account of kind `kind` after a credit of `amount`: a credit lowers
      what the account adds to net worth by the amount. */
  function CreditValue(kind: Kind, value: real, amount: real): (r: real)
    ensures SignOf(kind, r) == SignOf(kind, value) - amount
  {
    match kind
    case Asset => value - amount
    case Liability => value + amount
  }

  /** A credit undoes a debit of the same amount, and the other way round. */
  lemma CreditUndoesDebit(kind: Kind, value: real, amount: real)
    ensures CreditValue(kind, DebitValue(kind, value, amount), amount) == value
    ensures DebitValue(kind, CreditValue(kind, value, amount), amount) == value
  {
  }

  /** Debits (and credits) of two amounts add up to one debit (credit) of their sum. */
  lemma DebitsAdd(kind: Kind, value: real, x: real, y: real)
    ensures DebitValue(kind, DebitValue(kind, value, x), y) == DebitValue(kind, value, x + y)
    ensures CreditValue(kind, CreditValue(kind, value, x), y) == CreditValue(kind, value, x + y)
  {
  }

  datatype Transaction = Transaction(date: int, amount: real, debitAccount: AccountId, creditAccount: AccountId)

  /** What `process` does with one journal entry: debit one account, then credit the other. */
  function Apply(values: seq<real>, t: Transaction): (r: seq<real>)
    requires |values| == AccountCount
    ensures |r| == AccountCount
  {
    var d := t.debitAccount.Index();
    var debited := values[d := DebitValue(t.debitAccount.Kind(), values[d], t.amount)];
    var c := t.creditAccount.Index();
    debited[c := CreditValue(t.creditAccount.Kind(), debited[c], t.amount)]
  }

  /** The journal applied in order. */
  function ApplyAll(values: seq<real>, journal: seq<Transaction>): (r: seq<real>)
    requires |values| == AccountCount
    ensures |r| == AccountCount
    decreases |journal|
  {
    if journal == [] then values
    else Apply(ApplyAll(values, journal[..|journal| - 1]), journal[|journal| - 1])
  }

  /** The net-worth contribution of account `a`. */
  function Signed(values: seq<real>, a: AccountId): (s: real)
    requires |values| == AccountCount
  {
    SignOf(a.Kind(), values[a.Index()])
  }

  /** Total assets minus total liabilities. */
  function NetWorth(values: seq<real>): (worth: real)
    requires |values| == AccountCount
  {
    Signed(values, Inventory) + Signed(values, Cash) + Signed(values, ShareholdersEquity) + Signed(values, AccountsPayable)
  }

  /** A debit raises net worth by the amount, whatever the account's kind. */
  lemma DebitRaisesNetWorth(values: seq<real>, a: AccountId, amount: real)
    requires |values| == AccountCount
    ensures NetWorth(values[a.Index() := DebitValue(a.Kind(), values[a.Index()], amount)]) == NetWorth(values) + amount
  {
    match a
    case Inventory =>
    case Cash =>
    case ShareholdersEquity =>
    case AccountsPayable =>
  }

  /** A credit lowers net worth by the amount, whatever the account's kind. */
  lemma CreditLowersNetWorth(values: seq<real>, a: AccountId, amount: real)
    requires |values| == AccountCount
    ensures NetWorth(values[a.Index() := CreditValue(a.Kind(), values[a.Index()], amount)]) == NetWorth(values) - amount
  {
    match a
    case Inventory =>
    case Cash =>
    case ShareholdersEquity =>
    case AccountsPayable =>
  }

  /** Double entry: every transaction leaves assets minus liabilities unchanged. */
  lemma ApplyKeepsNetWorth(values: seq<real>, t: Transaction)
    requires |values| == AccountCount
    ensures NetWorth(Apply(values, t)) == NetWorth(values)
  {
    var d := t.debitAccount.Index();
    var debited := values[d := DebitValue(t.debitAccount.Kind(), values[d], t.amount)];
    DebitRaisesNetWorth(values, t.debitAccount, t.amount);
    CreditLowersNetWorth(debited, t.creditAccount, t.amount);
  }

  /** Processing any journal leaves assets minus liabilities unchanged. */
  lemma {:induction false} ApplyAllKeepsNetWorth(values: seq<real>, journal: seq<Transaction>)
    requires |values| == AccountCount
    ensures NetWorth(ApplyAll(values, journal)) == NetWorth(values)
    decreases |journal|
  {
    if journal != [] {
      ApplyAllKeepsNetWorth(values, journal[..|journal| - 1]);
      ApplyKeepsNetWorth(ApplyAll(values, journal[..|journal| - 1]), journal[|journal| - 1]);
    }
  }

  /** Processing two journals one after the other is processing their concatenation. */
  lemma {:induction false} ApplyAllAppend(values: seq<real>, a: seq<Transaction>, b: seq<Transaction>)
    requires |values| == AccountCount
    ensures ApplyAll(values, a + b) == ApplyAll(ApplyAll(values, a), b)
    decreases |b|
  {
    if b == [] {
      assert a + b == a;
    } else {
      ApplyAllAppend(values, a, b[..|b| - 1]);
      assert (a + b)[..|a + b| - 1] == a + b[..|b| - 1];
    }
  }

  /** A transaction between two different accounts changes only those two: the debited
      one as a debit, the credited one as a credit. */
  lemma ApplyBetween(values: seq<real>, t: Transaction)
    requires |values| == AccountCount
    requires t.debitAccount != t.creditAccount
    ensures var r := Apply(values, t);
            && r[t.debitAccount.Index()] == DebitValue(t.debitAccount.Kind(), values[t.debitAccount.Index()], t.amount)
            && r[t.creditAccount.Index()] == CreditValue(t.creditAccount.Kind(), values[t.creditAccount.Index()], t.amount)
            && forall a: AccountId :: a != t.debitAccount && a != t.creditAccount ==> r[a.Index()] == values[a.Index()]
  {
    IndexInjective(t.debitAccount, t.creditAccount);
    forall a: AccountId | a != t.debitAccount && a != t.creditAccount
      ensures Apply(values, t)[a.Index()] == values[a.Index()]
    {
      IndexInjective(a, t.debitAccount);
      IndexInjective(a, t.creditAccount);
    }
  }

  /** The transaction `raise_equity` journals. */
  function EquityTransaction(amount: real, date: int): (t: Transaction) {
    Transaction(date, amount, Cash, ShareholdersEquity)
  }

  /** The two transactions `purchase_inventory` journals: the goods arrive on credit, and
      the supplier is paid from cash once the terms run out. */
  function PurchaseTransactions(amount: real, purchaseDate: int, terms: int): (ts: seq<Transaction>) {
    [Transaction(purchaseDate, amount, Inventory, AccountsPayable),
     Transaction(purchaseDate + terms, amount, AccountsPayable, Cash)]
  }

  /** Raising equity puts the amount into cash and into shareholders' equity. */
  lemma EquityEffect(values: seq<real>, amount: real, date: int)
    requires |values| == AccountCount
    ensures var r := ApplyAll(values, [EquityTransaction(amount, date)]);
            && r[Cash.Index()] == values[Cash.Index()] + amount
            && r[ShareholdersEquity.Index()] == values[ShareholdersEquity.Index()] + amount
            && r[Inventory.Index()] == values[Inventory.Index()]
            && r[AccountsPayable.Index()] == values[AccountsPayable.Index()]
  {
    var t := EquityTransaction(amount, date);
    ApplyAllOne(values, t);
    ApplyBetween(values, t);
  }

  /** A one-entry journal is that entry applied. */
  lemma ApplyAllOne(values: seq<real>, t: Transaction)
    requires |values| == AccountCount
    ensures ApplyAll(values, [t]) == Apply(values, t)
  {
    assert [t][..0] == [];
  }

  /** A two-entry journal is its entries applied one after the other. */
  lemma ApplyAllTwo(values: seq<real>, t0: Transaction, t1: Transaction)
    requires |values| == AccountCount
    ensures ApplyAll(values, [t0, t1]) == Apply(Apply(values, t0), t1)
  {
    var journal := [t0, t1];
    assert journal[..1] == [t0];
    ApplyAllOne(values, t0);
    assert ApplyAll(values, journal) == Apply(ApplyAll(values, [t0]), t1);
  }

  /** Once both halves of a purchase are processed, the payable is back where it was,
      inventory has grown by the amount and cash has shrunk by it. */
  lemma PurchaseEffect(values: seq<real>, amount: real, purchaseDate: int, terms: int)
    requires |values| == AccountCount
    ensures var r := ApplyAll(values, PurchaseTransactions(amount, purchaseDate, terms));
            && r[AccountsPayable.Index()] == values[AccountsPayable.Index()]
            && r[Inventory.Index()] == values[Inventory.Index()] + amount
            && r[Cash.Index()] == values[Cash.Index()] - amount
            && r[ShareholdersEquity.Index()] == values[ShareholdersEquity.Index()]
  {
    var t0 := Transaction(purchaseDate, amount, Inventory, AccountsPayable);
    var t1 := Transaction(purchaseDate + terms, amount, AccountsPayable, Cash);
    var mid := Apply(values, t0);
    ApplyAllTwo(values, t0, t1);
    ApplyBetween(values, t0);
    ApplyBetween(mid, t1);
  }

  /** The business: four account values, the share count and the journal awaiting processing. */
  class Business {
    /** Account values, indexed by `AccountId.Index()`. */
    const ledger: array<real>
    var shares: int
    var journal: seq<Transaction>

    predicate Valid() {
      ledger.Length == AccountCount
    }

    constructor ()
      ensures Valid() && fresh(ledger)
      ensures ledger[..] == [0.0, 0.0, 0.0, 0.0]
      ensures shares == 0 && journal == []
    {
      ledger := new real[AccountCount](_ => 0.0);
      shares := 0;
      journal := [];
    }

    /** `debit` on the account in slot `account.Index()`. */
    method Debit(account: AccountId, amount: real)
      requires Valid()
      modifies ledger
      ensures ledger[..] == old(ledger[..])[account.Index() := DebitValue(account.Kind(), old(ledger[account.Index()]), amount)]
    {
      var i := account.Index();
      ledger[i] := DebitValue(account.Kind(), ledger[i], amount);
    }

    /** `credit` on the account in slot `account.Index()`. */
    method Credit(account: AccountId, amount: real)
      requires Valid()
      modifies ledger
      ensures ledger[..] == old(ledger[..])[account.Index() := CreditValue(account.Kind(), old(ledger[account.Index()]), amount)]
    {
      var i := account.Index();
      ledger[i] := CreditValue(account.Kind(), ledger[i], amount);
    }

    /** `raise_equity`: count the new shares and journal the cash received for them. */
    method RaiseEquity(newShares: int, amount: real, date: int)
      modifies this
      ensures shares == old(shares) + newShares
      ensures journal == old(journal) + [EquityTransaction(amount, date)]
    {
      shares := shares + newShares;
      journal := journal + [EquityTransaction(amount, date)];
    }

    /** `purchase_inventory`: journal the receipt of goods and the later payment. */
    method PurchaseInventory(amount: real, purchaseDate: int, terms: int)
      modifies this
      ensures shares == old(shares)
      ensures journal == old(journal) + PurchaseTransactions(amount, purchaseDate, terms)
    {
      journal := journal + [Transaction(purchaseDate, amount, Inventory, AccountsPayable)];
      journal := journal + [Transaction(purchaseDate + terms, amount, AccountsPayable, Cash)];
    }

    /** `process`: apply every journal entry in order, whatever its date and whatever
        `date` is, then empty the journal. */
    method Process(date: Option<int>)
      requires Valid()
      modifies this, ledger
      ensures ledger[..] == ApplyAll(old(ledger[..]), old(journal))
      ensures NetWorth(ledger[..]) == NetWorth(old(ledger[..]))
      ensures journal == [] && shares == old(shares)
    {
      var i := 0;
      while i < |journal|
        invariant 0 <= i <= |journal|
        invariant journal == old(journal) && shares == old(shares)
        invariant ledger[..] == ApplyAll(old(ledger[..]), journal[..i])
      {
        var t := journal[i];
        assert journal[..i + 1][..i] == journal[..i];
        Debit(t.debitAccount, t.amount);
        Credit(t.creditAccount, t.amount);
        i := i + 1;
      }
      assert journal[..i] == journal;
      ApplyAllKeepsNetWorth(old(ledger[..]), old(journal));
      journal := [];
    }
  }
}
