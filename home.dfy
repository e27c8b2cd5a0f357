/** The dashboard figures (src/pages/Home.tsx): income and expense totals,
    the balance and the "recent" slice, all derived from the store. */
module Home {
  import opened Schema
  import opened Seqs
  import opened Store

  /** `.reduce((sum, t) => sum + t.amount, 0)`, a left fold. */
  function SumAmounts(s: seq<Tx>): int
  {
    if s == [] then 0 else SumAmounts(s[..|s| - 1]) + s[|s| - 1].amount
  }

  /** `t.type === ty`, the predicate the totals filter with. */
  function IsType(ty: TxType): Tx -> bool
  {
    (t: Tx) => t.txType == ty
  }

  /** `.filter((t) => t.type === ty)` */
  function OfType(s: seq<Tx>, ty: TxType): seq<Tx>
  {
    Filter(s, IsType(ty))
  }

  function TotalIncome(s: seq<Tx>): int
  {
    SumAmounts(OfType(s, Income))
  }

  function TotalExpenses(s: seq<Tx>): int
  {
    SumAmounts(OfType(s, Expense))
  }

  function Balance(s: seq<Tx>): int
  {
    TotalIncome(s) - TotalExpenses(s)
  }

  /** `state.transactions.slice(0, 5)` */
  function Recent(s: seq<Tx>): seq<Tx>
  {
    if |s| <= 5 then s else s[..5]
  }

  /** Reference definition: the amounts of the records of one type, added
      from the front, with no intermediate list. */
  function SumOfType(s: seq<Tx>, ty: TxType): int
  {
    if s == [] then 0 else (if s[0].txType == ty then s[0].amount else 0) + SumOfType(s[1..], ty)
  }

  /** Reference definition: income counts positive, expense negative. */
  function SignedSum(s: seq<Tx>): int
  {
    if s == [] then 0
    else (if s[0].txType == Income then s[0].amount else -s[0].amount) + SignedSum(s[1..])
  }

  lemma {:induction false} SumAmountsAppend(a: seq<Tx>, b: seq<Tx>)
    ensures SumAmounts(a + b) == SumAmounts(a) + SumAmounts(b)
    decreases |b|
  {
    if b != [] {
      var ab := a + b;
      assert ab[..|ab| - 1] == a + b[..|b| - 1];
      SumAmountsAppend(a, b[..|b| - 1]);
    } else {
      assert a + b == a;
    }
  }

  lemma SumAmountsSingle(t: Tx)
    ensures SumAmounts([t]) == t.amount
  {
    assert [t][..0] == [];
  }

  /** Appending one record raises a filtered sum by its amount exactly when
      it passes the filter. */
  lemma SumAmountsFilterSnoc(s: seq<Tx>, t: Tx, p: Tx -> bool)
    ensures SumAmounts(Filter(s + [t], p)) == SumAmounts(Filter(s, p)) + (if p(t) then t.amount else 0)
  {
    FilterAppend(s, [t], p);
    var tail := Filter([t], p);
    assert tail == if p(t) then [t] else [];
    SumAmountsAppend(Filter(s, p), tail);
    SumAmountsSingle(t);
  }

  /** The filter-then-reduce totals equal the conditional sum. */
  lemma {:induction false} TotalsAreConditionalSums(s: seq<Tx>)
    ensures TotalIncome(s) == SumOfType(s, Income)
    ensures TotalExpenses(s) == SumOfType(s, Expense)
  {
    if s != [] {
      TotalsAreConditionalSums(s[1..]);
      assert s == [s[0]] + s[1..];
      FilterAppend([s[0]], s[1..], IsType(Income));
      FilterAppend([s[0]], s[1..], IsType(Expense));
      SumAmountsAppend(OfType([s[0]], Income), OfType(s[1..], Income));
      SumAmountsAppend(OfType([s[0]], Expense), OfType(s[1..], Expense));
      SumAmountsSingle(s[0]);
    }
  }

  lemma TotalsOfEmptyStore()
    ensures TotalIncome([]) == 0 && TotalExpenses([]) == 0 && Balance([]) == 0
  {
  }

  /** Every record is income or expense, so the two totals split the sum
      of all amounts. */
  lemma {:induction false} TotalsPartitionAllAmounts(s: seq<Tx>)
    ensures TotalIncome(s) + TotalExpenses(s) == SumAmounts(s)
    decreases |s|
  {
    if s != [] {
      var init, last := s[..|s| - 1], s[|s| - 1];
      assert s == init + [last];
      TotalsPartitionAllAmounts(init);
      SumAmountsFilterSnoc(init, last, IsType(Income));
      SumAmountsFilterSnoc(init, last, IsType(Expense));
      SumAmountsAppend(init, [last]);
      SumAmountsSingle(last);
    }
  }

  /** The balance is the signed sum: income adds, expense subtracts. */
  lemma {:induction false} BalanceIsSignedSum(s: seq<Tx>)
    ensures Balance(s) == SignedSum(s)
  {
    TotalsAreConditionalSums(s);
    SignedSumSplits(s);
  }

  lemma {:induction false} SignedSumSplits(s: seq<Tx>)
    ensures SignedSum(s) == SumOfType(s, Income) - SumOfType(s, Expense)
  {
    if s != [] {
      SignedSumSplits(s[1..]);
    }
  }

  /** Dispatching ADD for an income record raises the income total by its
      amount and leaves the expense total alone; symmetrically for expense. */
  lemma AddUpdatesTotals(s: seq<Tx>, t: Tx)
    ensures var r := Reduce(s, AddTransaction(t));
      && TotalIncome(r) == TotalIncome(s) + (if t.txType == Income then t.amount else 0)
      && TotalExpenses(r) == TotalExpenses(s) + (if t.txType == Expense then t.amount else 0)
  {
    SumAmountsFilterSnoc(s, t, IsType(Income));
    SumAmountsFilterSnoc(s, t, IsType(Expense));
  }

  /** The "recent" list is the first min(5, n) records in store order. */
  lemma RecentIsFirstFive(s: seq<Tx>)
    ensures |Recent(s)| == (if |s| < 5 then |s| else 5)
    ensures forall i :: 0 <= i < |Recent(s)| ==> Recent(s)[i] == s[i]
  {
  }

  /** ADD appends, so once the store holds five records a newly added one
      never shows among the "recent" ones. */
  lemma RecentIgnoresLaterAdds(s: seq<Tx>, t: Tx)
    requires |s| >= 5
    ensures Recent(Reduce(s, AddTransaction(t))) == Recent(s)
  {
    assert (s + [t])[..5] == s[..5];
  }
}
