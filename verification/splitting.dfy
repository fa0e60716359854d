/** `EqualSplitter.split`: spread one cost evenly over a group of creditors and a
    group of debtors, the last leg of each group absorbing the rounding slack. */
module Splitting {
  import opened Results
  import opened Ledger

  /** Which group's division by its own size failed. */
  datatype Group = Creditors | Debtors

  /** Splitting an empty group divides the cost by zero: decimal division signals
      `DivisionByZero` for a nonzero cost and `DivisionUndefined` (an invalid
      operation) for a zero one. */
  datatype SplitError = DivisionByZero(group: Group) | DivisionUndefined(group: Group)

  /** The error of dividing `cost` cents by an empty `group`. */
  function DivideByEmpty(cost: Cents, group: Group): (e: SplitError)
    ensures e.group == group
    ensures e.DivisionUndefined? <==> cost == 0
  {
    if cost == 0 then DivisionUndefined(group) else DivisionByZero(group)
  }

  /** `n` copies of `x` (the list `[x] * n`). */
  function Repeat(x: Cents, n: nat): (s: seq<Cents>)
    ensures |s| == n && forall i :: 0 <= i < n ==> s[i] == x
  {
    seq(n, _ => x)
  }

  /** Sum of a list of amounts, folded left to right. */
  function Sum(s: seq<Cents>): (total: Cents)
    decreases |s|
  {
    if s == [] then 0 else Sum(s[..|s| - 1]) + s[|s| - 1]
  }

  lemma {:induction false} SumRepeat(x: Cents, n: nat)
    ensures Sum(Repeat(x, n)) == n * x
  {
    if n > 0 {
      assert Repeat(x, n)[..n - 1] == Repeat(x, n - 1);
      SumRepeat(x, n - 1);
    }
  }

  /** The per-leg share: `cost / k` quantized half-even to cents. */
  function Share(cost: Cents, k: nat): (share: Cents)
    requires k > 0
    ensures IsHalfEvenRounding(cost as real / k as real, share)
  {
    DivideThenScale(cost, k);
    Quantize(Units(cost) / k as real)
  }

  /** The amounts of one group of `k` legs: `k - 1` shares, then the remainder. */
  function GroupAmounts(cost: Cents, k: nat): (amounts: seq<Cents>)
    requires k > 0
    ensures |amounts| == k
    ensures forall i :: 0 <= i < k - 1 ==> amounts[i] == Share(cost, k)
    ensures amounts[k - 1] == cost - (k - 1) * Share(cost, k)
    ensures Sum(amounts) == cost
  {
    var shares := Repeat(Share(cost, k), k - 1);
    SumRepeat(Share(cost, k), k - 1);
    assert (shares + [cost - Sum(shares)])[..k - 1] == shares;
    shares + [cost - Sum(shares)]
  }

  // Facts of real arithmetic used below.

  lemma Cancel(a: real, b: real, k: real, c: real)
    requires k > 0.0 && a * k == c && b * k == c
    ensures a == b
  {}

  lemma MulBound(d: real, k: real)
    requires k > 0.0 && -0.5 <= d <= 0.5
    ensures -0.5 * k <= d * k <= 0.5 * k
  {}

  lemma CastMul(s: int, k: int)
    ensures (s * k) as real == s as real * k as real
  {}

  lemma Distrib(q: real, s: real, k: real)
    ensures (q - s) * k == q * k - s * k
  {}

  lemma HalfBound(cost: int, p: int, k: nat, m: real)
    requires k > 0 && m == cost as real - p as real && -0.5 * k as real <= m <= 0.5 * k as real
    ensures 2 * (p - cost) <= k && 2 * (cost - p) <= k
  {}

  /** If `s` is within one half of `q` and `q * k` is `cost`, then `s * k` is within `k / 2` of `cost`. */
  lemma ScaledBound(q: real, s: int, k: nat, cost: int)
    requires k > 0 && q * k as real == cost as real && -0.5 <= q - s as real <= 0.5
    ensures 2 * (s * k - cost) <= k && 2 * (cost - s * k) <= k
  {
    var kr := k as real;
    var d := q - s as real;
    var m := d * kr;
    MulBound(d, kr);
    assert -0.5 * kr <= m;
    assert m <= 0.5 * kr;
    Distrib(q, s as real, kr);
    CastMul(s, k);
    HalfBound(cost, s * k, k, m);
  }

  /** Scaling a unit amount to cents commutes with dividing it by the group size. */
  lemma DivideThenScale(cost: Cents, k: nat)
    requires k > 0
    ensures Units(cost) / k as real * CentsPerUnit == cost as real / k as real
  {
    var u := Units(cost);
    var kr := k as real;
    var z := u / kr;
    var y := z * CentsPerUnit;
    assert u * CentsPerUnit == cost as real;
    assert z * kr == u;
    assert y * kr == (z * kr) * CentsPerUnit;
    Cancel(y, cost as real / kr, kr, cost as real);
  }

  /** The share is the cost divided by `k`, rounded half-even to a whole cent, so
      `k` shares miss the cost by at most half of `k` cents either way. */
  lemma ShareIsRoundedQuotient(cost: Cents, k: nat)
    requires k > 0
    ensures IsHalfEvenRounding(cost as real / k as real, Share(cost, k))
    ensures 2 * (Share(cost, k) * k - cost) <= k && 2 * (cost - Share(cost, k) * k) <= k
  {
    DivideThenScale(cost, k);
    var q := cost as real / k as real;
    assert q * k as real == cost as real;
    ScaledBound(q, Share(cost, k), k, cost);
  }

  /** The remainder leg differs from a regular share by at most half the group size. */
  lemma RemainderNearShare(cost: Cents, k: nat)
    requires k > 0
    ensures 2 * (GroupAmounts(cost, k)[k - 1] - Share(cost, k)) <= k
    ensures 2 * (Share(cost, k) - GroupAmounts(cost, k)[k - 1]) <= k
  {
    ShareIsRoundedQuotient(cost, k);
    var s := Share(cost, k);
    assert (k - 1) * s == s * k - s;
    assert GroupAmounts(cost, k)[k - 1] - s == cost - s * k;
  }

  /** The signed amounts of one group: credit legs positive, debit legs negated. */
  function SignedAmounts(cost: Cents, k: nat, debit: bool): (amounts: seq<Cents>)
    requires k > 0
    ensures |amounts| == k
    ensures forall i :: 0 <= i < k ==>
              amounts[i] == if debit then -GroupAmounts(cost, k)[i] else GroupAmounts(cost, k)[i]
  {
    var group := GroupAmounts(cost, k);
    seq(k, i requires 0 <= i < k => if debit then -group[i] else group[i])
  }

  /** The legs of one group, as entries. */
  function Legs(cost: Cents, transactionUid: Uid, accounts: seq<Account>, debit: bool,
                firstIndex: nat, entryUid: nat -> Uid): (legs: seq<Entry>)
    requires |accounts| > 0
    ensures |legs| == |accounts|
    ensures forall i :: 0 <= i < |legs| ==>
              && legs[i].uid == entryUid(firstIndex + i)
              && legs[i].transactionUid == transactionUid
              && legs[i].accountUid == accounts[i].uid
  {
    var amounts := SignedAmounts(cost, |accounts|, debit);
    seq(|accounts|, i requires 0 <= i < |accounts| =>
      NewEntry(entryUid(firstIndex + i), transactionUid, accounts[i].uid, Units(amounts[i])))
  }

  /** Each leg's entry keeps its signed amount exactly: it is already in cents. */
  lemma LegsAmounts(cost: Cents, transactionUid: Uid, accounts: seq<Account>, debit: bool,
                    firstIndex: nat, entryUid: nat -> Uid)
    requires |accounts| > 0
    ensures forall i :: 0 <= i < |accounts| ==>
              Legs(cost, transactionUid, accounts, debit, firstIndex, entryUid)[i].amount
              == SignedAmounts(cost, |accounts|, debit)[i]
  {
    var amounts := SignedAmounts(cost, |accounts|, debit);
    var legs := Legs(cost, transactionUid, accounts, debit, firstIndex, entryUid);
    forall i | 0 <= i < |accounts|
      ensures legs[i].amount == amounts[i]
    {
      assert legs[i] == NewEntry(entryUid(firstIndex + i), transactionUid, accounts[i].uid, Units(amounts[i]));
      NewEntryOfCents(entryUid(firstIndex + i), transactionUid, accounts[i].uid, amounts[i]);
    }
  }

  /** `EqualSplitter.split`. Entry `i` of the result gets the identifier `entryUid(i)`,
      standing for the fresh uuid4 the source draws for it. An empty group fails
      (creditors are divided first), and otherwise there is one entry per leg. */
  function Split(cost: real, transactionUid: Uid, creditors: seq<Account>, debtors: seq<Account>,
                 entryUid: nat -> Uid): (r: Result<seq<Entry>, SplitError>)
    ensures |creditors| == 0 ==> r == Err(DivideByEmpty(Quantize(cost), Creditors))
    ensures |creditors| > 0 && |debtors| == 0 ==> r == Err(DivideByEmpty(Quantize(cost), Debtors))
    ensures r.Ok? <==> |creditors| > 0 && |debtors| > 0
    ensures r.Ok? ==> |r.value| == |creditors| + |debtors|
  {
    var c := Quantize(cost);
    if |creditors| == 0 then Err(DivideByEmpty(c, Creditors))
    else
      var creditEntries := Legs(c, transactionUid, creditors, false, 0, entryUid);
      if |debtors| == 0 then Err(DivideByEmpty(c, Debtors))
      else
        var debitEntries := Legs(c, transactionUid, debtors, true, |creditors|, entryUid);
        Ok(creditEntries + debitEntries)
  }

  /** The entries of a successful split: the creditor legs, then the debtor legs. */
  lemma SplitLegs(cost: real, transactionUid: Uid, creditors: seq<Account>, debtors: seq<Account>,
                  entryUid: nat -> Uid)
    requires |creditors| > 0 && |debtors| > 0
    ensures Split(cost, transactionUid, creditors, debtors, entryUid)
            == Ok(Legs(Quantize(cost), transactionUid, creditors, false, 0, entryUid)
                  + Legs(Quantize(cost), transactionUid, debtors, true, |creditors|, entryUid))
  {}

  /** Creditor legs come first in creditor order, then debtor legs in debtor order. */
  lemma SplitAccounts(cost: real, transactionUid: Uid, creditors: seq<Account>, debtors: seq<Account>,
                      entryUid: nat -> Uid)
    requires |creditors| > 0 && |debtors| > 0
    ensures var entries := Split(cost, transactionUid, creditors, debtors, entryUid).value;
            && (forall i :: 0 <= i < |creditors| ==> entries[i].accountUid == creditors[i].uid)
            && (forall j :: 0 <= j < |debtors| ==> entries[|creditors| + j].accountUid == debtors[j].uid)
  {
    var credits := Legs(Quantize(cost), transactionUid, creditors, false, 0, entryUid);
    var debits := Legs(Quantize(cost), transactionUid, debtors, true, |creditors|, entryUid);
    SplitLegs(cost, transactionUid, creditors, debtors, entryUid);
    ConcatAccounts(credits, debits, creditors, debtors);
  }

  /** Every entry of a split belongs to the given transaction, and entry `i` gets the
      identifier `entryUid(i)`. */
  lemma SplitIdentifiers(cost: real, transactionUid: Uid, creditors: seq<Account>, debtors: seq<Account>,
                         entryUid: nat -> Uid)
    requires |creditors| > 0 && |debtors| > 0
    ensures var entries := Split(cost, transactionUid, creditors, debtors, entryUid).value;
            forall i :: 0 <= i < |entries| ==>
              entries[i].transactionUid == transactionUid && entries[i].uid == entryUid(i)
  {
    var credits := Legs(Quantize(cost), transactionUid, creditors, false, 0, entryUid);
    var debits := Legs(Quantize(cost), transactionUid, debtors, true, |creditors|, entryUid);
    SplitLegs(cost, transactionUid, creditors, debtors, entryUid);
    ConcatIdentifiers(credits, debits, transactionUid, entryUid);
  }

  /** Creditor legs come first in creditor order, then debtor legs in debtor order; every
      entry belongs to the given transaction and gets its own identifier. */
  lemma SplitShape(cost: real, transactionUid: Uid, creditors: seq<Account>, debtors: seq<Account>,
                   entryUid: nat -> Uid)
    requires |creditors| > 0 && |debtors| > 0
    ensures var entries := Split(cost, transactionUid, creditors, debtors, entryUid).value;
            && |entries| == |creditors| + |debtors|
            && (forall i :: 0 <= i < |creditors| ==> entries[i].accountUid == creditors[i].uid)
            && (forall j :: 0 <= j < |debtors| ==> entries[|creditors| + j].accountUid == debtors[j].uid)
            && (forall i :: 0 <= i < |entries| ==>
                  entries[i].transactionUid == transactionUid && entries[i].uid == entryUid(i))
  {
    SplitAccounts(cost, transactionUid, creditors, debtors, entryUid);
    SplitIdentifiers(cost, transactionUid, creditors, debtors, entryUid);
  }

  lemma ConcatAccounts(credits: seq<Entry>, debits: seq<Entry>, creditors: seq<Account>, debtors: seq<Account>)
    requires |credits| == |creditors| && |debits| == |debtors|
    requires forall i :: 0 <= i < |credits| ==> credits[i].accountUid == creditors[i].uid
    requires forall j :: 0 <= j < |debits| ==> debits[j].accountUid == debtors[j].uid
    ensures forall i :: 0 <= i < |creditors| ==> (credits + debits)[i].accountUid == creditors[i].uid
    ensures forall j :: 0 <= j < |debtors| ==> (credits + debits)[|creditors| + j].accountUid == debtors[j].uid
  {
    var entries := credits + debits;
    assert forall i :: 0 <= i < |credits| ==> entries[i] == credits[i];
    assert forall j :: 0 <= j < |debits| ==> entries[|credits| + j] == debits[j];
  }

  lemma ConcatIdentifiers(credits: seq<Entry>, debits: seq<Entry>, transactionUid: Uid, entryUid: nat -> Uid)
    requires forall i :: 0 <= i < |credits| ==>
               credits[i].uid == entryUid(i) && credits[i].transactionUid == transactionUid
    requires forall j :: 0 <= j < |debits| ==>
               debits[j].uid == entryUid(|credits| + j) && debits[j].transactionUid == transactionUid
    ensures forall i :: 0 <= i < |credits + debits| ==>
              (credits + debits)[i].transactionUid == transactionUid && (credits + debits)[i].uid == entryUid(i)
  {
    var k := |credits|;
    var entries := credits + debits;
    forall i | 0 <= i < |entries|
      ensures entries[i].transactionUid == transactionUid && entries[i].uid == entryUid(i)
    {
      if i < k {
        assert entries[i] == credits[i];
      } else {
        assert entries[i] == debits[i - k];
      }
    }
  }

  /** Every leg but the last of its group is the rounded share; the last is the remainder.
      Debtor legs are the same amounts negated. */
  lemma SplitAmounts(cost: real, transactionUid: Uid, creditors: seq<Account>, debtors: seq<Account>,
                     entryUid: nat -> Uid)
    requires |creditors| > 0 && |debtors| > 0
    ensures var entries := Split(cost, transactionUid, creditors, debtors, entryUid).value;
            var c, k, m := Quantize(cost), |creditors|, |debtors|;
            && |entries| == k + m
            && (forall i :: 0 <= i < k - 1 ==> entries[i].amount == Share(c, k))
            && entries[k - 1].amount == c - (k - 1) * Share(c, k)
            && (forall j :: k <= j < k + m - 1 ==> entries[j].amount == -Share(c, m))
            && entries[k + m - 1].amount == -(c - (m - 1) * Share(c, m))
  {
    var c := Quantize(cost);
    SplitLegs(cost, transactionUid, creditors, debtors, entryUid);
    LegsAmounts(c, transactionUid, creditors, false, 0, entryUid);
    LegsAmounts(c, transactionUid, debtors, true, |creditors|, entryUid);
  }

  /** A group of one gets the whole quantized cost: plus for a creditor, minus for a debtor. */
  lemma SplitSingletons(cost: real, transactionUid: Uid, creditor: Account, debtor: Account,
                        entryUid: nat -> Uid)
    ensures var r := Split(cost, transactionUid, [creditor], [debtor], entryUid);
            && r.Ok? && |r.value| == 2
            && r.value[0].amount == Quantize(cost) && r.value[1].amount == -Quantize(cost)
  {
    SplitAmounts(cost, transactionUid, [creditor], [debtor], entryUid);
  }

  /** A zero cost gives all-zero legs. */
  lemma SplitZeroCost(cost: real, transactionUid: Uid, creditors: seq<Account>, debtors: seq<Account>,
                      entryUid: nat -> Uid)
    requires |creditors| > 0 && |debtors| > 0 && Quantize(cost) == 0
    ensures var entries := Split(cost, transactionUid, creditors, debtors, entryUid).value;
            forall i :: 0 <= i < |entries| ==> entries[i].amount == 0
  {
    var k, m := |creditors|, |debtors|;
    ShareOfZero(k);
    ShareOfZero(m);
    SplitAmounts(cost, transactionUid, creditors, debtors, entryUid);
  }

  /** Nothing divided by anything rounds to nothing. */
  lemma ShareOfZero(k: nat)
    requires k > 0
    ensures Share(0, k) == 0
  {
    ShareIsRoundedQuotient(0, k);
    assert 0 as real / k as real == 0.0;
  }

  lemma {:induction false} TotalOfAmounts(entries: seq<Entry>, amounts: seq<Cents>, negate: bool)
    requires |entries| == |amounts|
    requires forall i :: 0 <= i < |entries| ==>
               entries[i].amount == if negate then -amounts[i] else amounts[i]
    ensures Total(entries) == if negate then -Sum(amounts) else Sum(amounts)
    decreases |entries|
  {
    if entries != [] {
      TotalOfAmounts(entries[..|entries| - 1], amounts[..|amounts| - 1], negate);
    }
  }

  /** The legs of one group sum to the cost: positive for creditors, negated for debtors. */
  lemma LegsTotal(cost: Cents, transactionUid: Uid, accounts: seq<Account>, debit: bool,
                  firstIndex: nat, entryUid: nat -> Uid)
    requires |accounts| > 0
    ensures Total(Legs(cost, transactionUid, accounts, debit, firstIndex, entryUid))
            == if debit then -cost else cost
  {
    var legs := Legs(cost, transactionUid, accounts, debit, firstIndex, entryUid);
    var amounts := GroupAmounts(cost, |accounts|);
    LegsAmounts(cost, transactionUid, accounts, debit, firstIndex, entryUid);
    assert forall i :: 0 <= i < |legs| ==> legs[i].amount == if debit then -amounts[i] else amounts[i];
    TotalOfAmounts(legs, amounts, debit);
  }

  /** Credit legs summing to `c` followed by debit legs summing to `-c` balance. */
  lemma ConcatTotal(credits: seq<Entry>, debits: seq<Entry>, c: Cents)
    requires Total(credits) == c && Total(debits) == -c
    ensures var entries := credits + debits;
            && Total(entries[..|credits|]) == c
            && Total(entries[|credits|..]) == -c
            && Total(entries) == 0
  {
    var entries := credits + debits;
    assert entries[..|credits|] == credits && entries[|credits|..] == debits;
    TotalAppend(credits, debits);
  }

  /** The credit legs sum to the quantized cost, the debit legs to its negation, and the
      whole split to exactly zero, whatever the rounding of the shares. */
  lemma SplitBalanced(cost: real, transactionUid: Uid, creditors: seq<Account>, debtors: seq<Account>,
                      entryUid: nat -> Uid)
    requires |creditors| > 0 && |debtors| > 0
    ensures var entries := Split(cost, transactionUid, creditors, debtors, entryUid).value;
            && Total(entries[..|creditors|]) == Quantize(cost)
            && Total(entries[|creditors|..]) == -Quantize(cost)
            && Total(entries) == 0
  {
    var c, k := Quantize(cost), |creditors|;
    var credits := Legs(c, transactionUid, creditors, false, 0, entryUid);
    var debits := Legs(c, transactionUid, debtors, true, k, entryUid);
    SplitLegs(cost, transactionUid, creditors, debtors, entryUid);
    LegsTotal(c, transactionUid, creditors, false, 0, entryUid);
    LegsTotal(c, transactionUid, debtors, true, k, entryUid);
    ConcatTotal(credits, debits, c);
  }

  /** Wrapping a split in a transaction with the same identifier always passes validation. */
  lemma SplitMakesValidTransaction(cost: real, transactionUid: Uid, creditors: seq<Account>,
                                   debtors: seq<Account>, entryUid: nat -> Uid,
                                   description: string, timestamp: Option<int>)
    requires |creditors| > 0 && |debtors| > 0
    ensures var entries := Split(cost, transactionUid, creditors, debtors, entryUid).value;
            NewTransaction(transactionUid, entries, description, timestamp).Ok?
  {
    SplitShape(cost, transactionUid, creditors, debtors, entryUid);
    SplitBalanced(cost, transactionUid, creditors, debtors, entryUid);
  }

  /** 10.00 split three ways is 3.33, 3.33 and 3.34, the remainder on the last leg. */
  lemma ThreeWaySplitOfTen()
    ensures GroupAmounts(1000, 3) == [333, 333, 334]
  {
    DivideThenScale(1000, 3);
    RoundHalfEvenUnique(1000.0 / 3.0, 333);
  }

  /** 0.06 split eight ways rounds the share up to 0.01, leaving -0.01 on the last leg. */
  lemma EightWaySplitOfSixCents()
    ensures GroupAmounts(6, 8) == Repeat(1, 7) + [-1]
  {
    DivideThenScale(6, 8);
    RoundHalfEvenUnique(6.0 / 8.0, 1);
  }
}
