/** The immutable ledger primitives of moneypy: accounts, entries and balanced
    transactions, with the currency quantization policy (cents, round half to even). */
module Ledger {
  import opened Results

  /** Opaque identifiers (the source draws them from uuid4). */
  type Uid = nat

  /** A monetary amount in the smallest currency unit: `CURRENCY_EPSILON` is
      Decimal("1.00"), whose exponent is -2, so amounts are kept in hundredths. */
  type Cents = int

  /** Number of cents in one currency unit (10 ** -exponent of `CURRENCY_EPSILON`). */
  const CentsPerUnit: real := 100.0

  /** `n` is `x` rounded to the nearest integer, an exact tie going to the even neighbour. */
  ghost predicate IsHalfEvenRounding(x: real, n: int) {
    && -0.5 <= x - n as real <= 0.5
    && ((x - n as real == 0.5 || x - n as real == -0.5) ==> n % 2 == 0)
  }

  /** ROUND_HALF_EVEN to an integer. */
  function RoundHalfEven(x: real): (n: int)
    ensures IsHalfEvenRounding(x, n)
  {
    var f := x.Floor;
    var frac := x - f as real;
    if frac < 0.5 then f
    else if frac > 0.5 then f + 1
    else if f % 2 == 0 then f
    else f + 1
  }

  /** The rounding rule determines its result: only one integer is nearest-with-ties-to-even. */
  lemma RoundHalfEvenUnique(x: real, n: int)
    requires IsHalfEvenRounding(x, n)
    ensures n == RoundHalfEven(x)
  {
    var m := RoundHalfEven(x);
    if n != m {
      // Both would be within one half of x, so they are neighbours and both even.
      assert false;
    }
  }

  /** A cent amount as a decimal number of currency units. */
  function Units(c: Cents): (u: real)
    ensures u * CentsPerUnit == c as real
  {
    c as real / CentsPerUnit
  }

  /** `amount.quantize(CURRENCY_EPSILON, rounding=ROUND_HALF_EVEN)`, as a number of cents. */
  function Quantize(amount: real): (c: Cents)
    ensures IsHalfEvenRounding(amount * CentsPerUnit, c)
  {
    RoundHalfEven(amount * CentsPerUnit)
  }

  /** Quantizing an amount that is already a whole number of cents changes nothing. */
  lemma QuantizeCents(c: Cents)
    ensures Quantize(Units(c)) == c
  {
    assert Units(c) * CentsPerUnit == c as real;
    RoundHalfEvenUnique(c as real, c);
  }

  /** Quantization is idempotent. */
  lemma QuantizeIdempotent(amount: real)
    ensures Quantize(Units(Quantize(amount))) == Quantize(amount)
  {
    QuantizeCents(Quantize(amount));
  }

  /** An account is an identity only; it holds no balance. */
  datatype Account = Account(uid: Uid, name: string)

  /** A signed posting: a positive amount is a credit, a negative one a debit. */
  datatype Entry = Entry(uid: Uid, transactionUid: Uid, accountUid: Uid, amount: Cents)

  /** Constructing an `Entry` quantizes its raw amount and never fails. */
  function NewEntry(uid: Uid, transactionUid: Uid, accountUid: Uid, amount: real): (e: Entry)
    ensures e.uid == uid && e.transactionUid == transactionUid && e.accountUid == accountUid
    ensures IsHalfEvenRounding(amount * CentsPerUnit, e.amount)
  {
    Entry(uid, transactionUid, accountUid, Quantize(amount))
  }

  /** An entry built from an amount that is already in cents keeps that amount. */
  lemma NewEntryOfCents(uid: Uid, transactionUid: Uid, accountUid: Uid, c: Cents)
    ensures NewEntry(uid, transactionUid, accountUid, Units(c)) == Entry(uid, transactionUid, accountUid, c)
  {
    QuantizeCents(c);
  }

  datatype Transaction = Transaction(uid: Uid, entries: seq<Entry>, description: string, timestamp: Option<int>)

  /** The three distinct `ValueError`s of transaction validation. */
  datatype TransactionError =
    | InsufficientEntries
    | OutOfBalance(imbalance: Cents, description: string)
    | UidMismatch

  /** Sum of the entry amounts, folded left to right. */
  function Total(entries: seq<Entry>): (total: Cents)
    decreases |entries|
  {
    if entries == [] then 0 else Total(entries[..|entries| - 1]) + entries[|entries| - 1].amount
  }

  /** Every entry refers back to the transaction `uid`. */
  predicate OwnedBy(uid: Uid, entries: seq<Entry>) {
    forall i :: 0 <= i < |entries| ==> entries[i].transactionUid == uid
  }

  /** The invariants every constructed transaction satisfies. */
  predicate ValidTransaction(t: Transaction) {
    |t.entries| >= 2 && Total(t.entries) == 0 && OwnedBy(t.uid, t.entries)
  }

  /** Constructing a `Transaction`: count, then balance, then ownership; the first failing
      check decides the error, and nothing is built on error. */
  function NewTransaction(uid: Uid, entries: seq<Entry>, description: string, timestamp: Option<int>)
    : (r: Result<Transaction, TransactionError>)
    ensures r.Ok? <==> ValidTransaction(Transaction(uid, entries, description, timestamp))
    ensures r.Ok? ==> r.value == Transaction(uid, entries, description, timestamp)
    ensures |entries| < 2 ==> r == Err(InsufficientEntries)
    ensures |entries| >= 2 && Total(entries) != 0 ==> r == Err(OutOfBalance(Total(entries), description))
    ensures |entries| >= 2 && Total(entries) == 0 && !OwnedBy(uid, entries) ==> r == Err(UidMismatch)
  {
    if |entries| < 2 then Err(InsufficientEntries)
    else
      var total := Total(entries);
      QuantizeCents(total);
      if Quantize(Units(total)) != 0 then Err(OutOfBalance(total, description))
      else if exists i :: 0 <= i < |entries| && entries[i].transactionUid != uid then Err(UidMismatch)
      else Ok(Transaction(uid, entries, description, timestamp))
  }

  /** Sum of the strictly positive amounts (the credits). */
  function Credits(entries: seq<Entry>): (s: Cents)
    ensures s >= 0
    decreases |entries|
  {
    if entries == [] then 0
    else
      var last := entries[|entries| - 1].amount;
      Credits(entries[..|entries| - 1]) + (if last > 0 then last else 0)
  }

  /** Magnitude of the strictly negative amounts (the debits). */
  function Debits(entries: seq<Entry>): (s: Cents)
    ensures s >= 0
    decreases |entries|
  {
    if entries == [] then 0
    else
      var last := entries[|entries| - 1].amount;
      Debits(entries[..|entries| - 1]) + (if last < 0 then -last else 0)
  }

  /** `gross_cost`: the economic magnitude of the event. */
  function GrossCost(t: Transaction): (g: Cents)
    ensures g >= 0
  {
    Credits(t.entries)
  }

  /** The signed total is credits minus debits. */
  lemma {:induction false} TotalIsCreditsMinusDebits(entries: seq<Entry>)
    ensures Total(entries) == Credits(entries) - Debits(entries)
    decreases |entries|
  {
    if entries != [] {
      TotalIsCreditsMinusDebits(entries[..|entries| - 1]);
    }
  }

  /** In a valid transaction the gross cost is also the total of the debits. */
  lemma GrossCostOfValid(t: Transaction)
    requires ValidTransaction(t)
    ensures GrossCost(t) == Debits(t.entries)
  {
    TotalIsCreditsMinusDebits(t.entries);
  }

  lemma {:induction false} TotalAppend(a: seq<Entry>, b: seq<Entry>)
    ensures Total(a + b) == Total(a) + Total(b)
    decreases |b|
  {
    if b == [] {
      assert a + b == a;
    } else {
      assert (a + b)[..|a + b| - 1] == a + b[..|b| - 1];
      TotalAppend(a, b[..|b| - 1]);
    }
  }
}
