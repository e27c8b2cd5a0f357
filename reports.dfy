/** The charts page (src/pages/Reports.tsx): expenses per category, income
    and expenses per month label, the sorted month axis and the two bar
    series. The month label of a date is a parameter, `monthOf`, because
    the source derives it from the browser's locale and time zone. */
module Reports {
  import opened Schema
  import opened Seqs
  import opened Store
  import opened Record
  import opened Text
  import opened Home

  // ---------------------------------------------------------------------
  // Expenses per category

  /** The `categoryExpenses` reduce over an already filtered list. */
  function CategoryTotals(e: seq<Tx>): Dict
  {
    if e == [] then []
    else AddTo(CategoryTotals(e[..|e| - 1]), e[|e| - 1].category, e[|e| - 1].amount)
  }

  /** `categoryExpenses`: expense records only, summed per category. */
  function CategoryExpenses(s: seq<Tx>): Dict
  {
    CategoryTotals(OfType(s, Expense))
  }

  lemma CategoryTotalsSnoc(e: seq<Tx>, t: Tx)
    ensures CategoryTotals(e + [t]) == AddTo(CategoryTotals(e), t.category, t.amount)
  {
    assert (e + [t])[..|e|] == e;
  }

  /** The fold over one more record of `e`. */
  lemma CategoryTotalsPrefix(e: seq<Tx>, i: nat)
    requires i < |e|
    ensures CategoryTotals(e[..i + 1]) == AddTo(CategoryTotals(e[..i]), e[i].category, e[i].amount)
  {
    assert e[..i] + [e[i]] == e[..i + 1];
    CategoryTotalsSnoc(e[..i], e[i]);
  }

  /** The `categoryExpenses` reduce as the source runs it: one pass over the
      expense records, updating the accumulator. */
  method TallyCategories(e: seq<Tx>) returns (acc: Dict)
    ensures acc == CategoryTotals(e)
  {
    acc := [];
    var i := 0;
    while i < |e|
      invariant 0 <= i <= |e|
      invariant acc == CategoryTotals(e[..i])
    {
      CategoryTotalsPrefix(e, i);
      acc := AddTo(acc, e[i].category, e[i].amount);
      i := i + 1;
    }
    assert e[..i] == e;
  }

  method ComputeCategoryExpenses(s: seq<Tx>) returns (acc: Dict)
    ensures acc == CategoryExpenses(s)
  {
    acc := TallyCategories(OfType(s, Expense));
  }

  function InCategory(c: string): Tx -> bool
  {
    (t: Tx) => t.category == c
  }

  function IsExpenseIn(c: string): Tx -> bool
  {
    (t: Tx) => t.txType == Expense && t.category == c
  }

  lemma {:induction false} CategoryTotalsFacts(e: seq<Tx>)
    ensures UniqueKeys(CategoryTotals(e))
    ensures SumValues(CategoryTotals(e)) == SumAmounts(e)
    ensures forall c :: c in Keys(CategoryTotals(e)) <==> exists i :: 0 <= i < |e| && e[i].category == c
    decreases |e|
  {
    if e != [] {
      var init, last := e[..|e| - 1], e[|e| - 1];
      assert e == init + [last];
      CategoryTotalsFacts(init);
      SumAmountsAppend(init, [last]);
      SumAmountsSingle(last);
      forall c ensures c in Keys(CategoryTotals(e)) <==> exists i :: 0 <= i < |e| && e[i].category == c {
        if c in Keys(CategoryTotals(init)) {
          var i :| 0 <= i < |init| && init[i].category == c;
          assert e[i] == init[i];
        }
        if exists i :: 0 <= i < |e| && e[i].category == c {
          var i :| 0 <= i < |e| && e[i].category == c;
          if i < |init| {
            assert init[i] == e[i];
          }
        }
      }
    }
  }

  lemma {:induction false} CategoryTotalsValue(e: seq<Tx>, c: string)
    ensures Get(CategoryTotals(e), c) == SumAmounts(Filter(e, InCategory(c)))
    decreases |e|
  {
    if e != [] {
      var init, last := e[..|e| - 1], e[|e| - 1];
      assert e == init + [last];
      CategoryTotalsValue(init, c);
      CategoryTotalsSnoc(init, last);
      SumAmountsFilterSnoc(init, last, InCategory(c));
    }
  }

  /** `categoryExpenses` has a key exactly for each category with at least
      one expense record. */
  lemma CategoryExpensesKeys(s: seq<Tx>)
    ensures forall c :: c in Keys(CategoryExpenses(s)) <==>
      exists i :: 0 <= i < |s| && s[i].txType == Expense && s[i].category == c
  {
    CategoryTotalsFacts(OfType(s, Expense));
    forall c ensures c in Keys(CategoryExpenses(s)) <==>
      exists i :: 0 <= i < |s| && s[i].txType == Expense && s[i].category == c
    {
      ExpenseCategoryKey(s, c);
    }
  }

  lemma ExpenseCategoryKey(s: seq<Tx>, c: string)
    requires var e := OfType(s, Expense);
      c in Keys(CategoryTotals(e)) <==> exists i :: 0 <= i < |e| && e[i].category == c
    ensures c in Keys(CategoryExpenses(s)) <==>
      exists i :: 0 <= i < |s| && s[i].txType == Expense && s[i].category == c
  {
    var e := OfType(s, Expense);
    if c in Keys(CategoryExpenses(s)) {
      var i :| 0 <= i < |e| && e[i].category == c;
      assert e[i] in s && e[i].txType == Expense;
      var j :| 0 <= j < |s| && s[j] == e[i];
    }
    if exists i :: 0 <= i < |s| && s[i].txType == Expense && s[i].category == c {
      var i :| 0 <= i < |s| && s[i].txType == Expense && s[i].category == c;
      FilterKeepsPassing(s, IsType(Expense), i);
      var j :| 0 <= j < |e| && e[j] == s[i];
    }
  }

  /** Each category's value is the sum of that category's expense amounts. */
  lemma CategoryExpensesValue(s: seq<Tx>, c: string)
    ensures Get(CategoryExpenses(s), c) == SumAmounts(Filter(s, IsExpenseIn(c)))
  {
    CategoryTotalsValue(OfType(s, Expense), c);
    FilterFilter(s, IsType(Expense), InCategory(c), IsExpenseIn(c));
  }

  /** The pie chart's values add up to the expense total shown on Home. */
  lemma CategoryExpensesSumToTotal(s: seq<Tx>)
    ensures UniqueKeys(CategoryExpenses(s))
    ensures SumValues(CategoryExpenses(s)) == TotalExpenses(s)
  {
    CategoryTotalsFacts(OfType(s, Expense));
  }

  /** Adding an income record does not change `categoryExpenses`. */
  lemma IncomeLeavesCategoriesAlone(s: seq<Tx>, t: Tx)
    requires t.txType == Income
    ensures CategoryExpenses(Reduce(s, AddTransaction(t))) == CategoryExpenses(s)
  {
    FilterAppend(s, [t], IsType(Expense));
    assert Filter([t], IsType(Expense)) == [];
    assert OfType(s + [t], Expense) == OfType(s, Expense);
  }

  // ---------------------------------------------------------------------
  // Income and expenses per month label

  datatype MonthlyTotals = MonthlyTotals(income: Dict, expenses: Dict)

  /** One step of the `monthlyData` reduce: income records go to `income`,
      every other record to `expenses`. */
  function MonthlyStep(acc: MonthlyTotals, t: Tx, monthOf: string -> string): MonthlyTotals
  {
    var month := monthOf(t.date);
    if t.txType == Income then acc.(income := AddTo(acc.income, month, t.amount))
    else acc.(expenses := AddTo(acc.expenses, month, t.amount))
  }

  /** `monthlyData` */
  function MonthlyData(s: seq<Tx>, monthOf: string -> string): MonthlyTotals
  {
    if s == [] then MonthlyTotals([], [])
    else MonthlyStep(MonthlyData(s[..|s| - 1], monthOf), s[|s| - 1], monthOf)
  }

  lemma MonthlyDataSnoc(s: seq<Tx>, t: Tx, monthOf: string -> string)
    ensures MonthlyData(s + [t], monthOf) == MonthlyStep(MonthlyData(s, monthOf), t, monthOf)
  {
    assert (s + [t])[..|s|] == s;
  }

  /** The fold over one more record of `s`. */
  lemma MonthlyDataPrefix(s: seq<Tx>, i: nat, monthOf: string -> string)
    requires i < |s|
    ensures MonthlyData(s[..i + 1], monthOf) == MonthlyStep(MonthlyData(s[..i], monthOf), s[i], monthOf)
  {
    assert s[..i] + [s[i]] == s[..i + 1];
    MonthlyDataSnoc(s[..i], s[i], monthOf);
  }

  method ComputeMonthlyData(s: seq<Tx>, monthOf: string -> string) returns (acc: MonthlyTotals)
    ensures acc == MonthlyData(s, monthOf)
  {
    acc := MonthlyTotals([], []);
    var i := 0;
    while i < |s|
      invariant 0 <= i <= |s|
      invariant acc == MonthlyData(s[..i], monthOf)
    {
      MonthlyDataPrefix(s, i, monthOf);
      var month := monthOf(s[i].date);
      if s[i].txType == Income {
        acc := acc.(income := AddTo(acc.income, month, s[i].amount));
      } else {
        acc := acc.(expenses := AddTo(acc.expenses, month, s[i].amount));
      }
      i := i + 1;
    }
    assert s[..i] == s;
  }

  /** Every record is counted once: the income buckets add up to the income
      total and the expense buckets to the expense total. */
  lemma MonthlySumsMatchTotals(s: seq<Tx>, monthOf: string -> string)
    ensures UniqueKeys(MonthlyData(s, monthOf).income)
    ensures UniqueKeys(MonthlyData(s, monthOf).expenses)
    ensures SumValues(MonthlyData(s, monthOf).income) == TotalIncome(s)
    ensures SumValues(MonthlyData(s, monthOf).expenses) == TotalExpenses(s)
  {
    BucketSumsToTotal(s, monthOf, Income);
    BucketSumsToTotal(s, monthOf, Expense);
  }

  /** The buckets of one type hold each label once and add up to that
      type's total. */
  lemma {:induction false} BucketSumsToTotal(s: seq<Tx>, monthOf: string -> string, ty: TxType)
    ensures UniqueKeys(Bucket(MonthlyData(s, monthOf), ty))
    ensures SumValues(Bucket(MonthlyData(s, monthOf), ty)) == SumAmounts(OfType(s, ty))
    decreases |s|
  {
    if s != [] {
      var init, last := s[..|s| - 1], s[|s| - 1];
      assert s == init + [last];
      BucketSumsToTotal(init, monthOf, ty);
      MonthlyDataSnoc(init, last, monthOf);
      SumAmountsFilterSnoc(init, last, IsType(ty));
    }
  }

  function InMonth(ty: TxType, monthOf: string -> string, month: string): Tx -> bool
  {
    (t: Tx) => t.txType == ty && monthOf(t.date) == month
  }

  /** The map of `monthlyData` that records of type `ty` go to. */
  function Bucket(md: MonthlyTotals, ty: TxType): Dict
  {
    if ty == Income then md.income else md.expenses
  }

  lemma MonthlyStepBucket(acc: MonthlyTotals, t: Tx, monthOf: string -> string, ty: TxType, month: string)
    ensures Get(Bucket(MonthlyStep(acc, t, monthOf), ty), month)
         == Get(Bucket(acc, ty), month) + (if InMonth(ty, monthOf, month)(t) then t.amount else 0)
  {
  }

  /** A bucket holds the amounts of exactly the records of its type whose
      date has that month label, whatever their year. */
  lemma {:induction false} MonthlyBucketValue(s: seq<Tx>, monthOf: string -> string, ty: TxType, month: string)
    ensures Get(Bucket(MonthlyData(s, monthOf), ty), month) == SumAmounts(Filter(s, InMonth(ty, monthOf, month)))
    decreases |s|
  {
    if s != [] {
      var init, last := s[..|s| - 1], s[|s| - 1];
      assert s == init + [last];
      MonthlyBucketValue(init, monthOf, ty, month);
      MonthlyDataSnoc(init, last, monthOf);
      MonthlyStepBucket(MonthlyData(init, monthOf), last, monthOf, ty, month);
      SumAmountsFilterSnoc(init, last, InMonth(ty, monthOf, month));
    }
  }

  /** Only the type, the amount and the month label of each record matter:
      two stores that agree on those have the same `monthlyData`, so
      January 2023 and January 2024 share one bucket. */
  lemma {:induction false} MonthlyDependsOnlyOnLabels(s1: seq<Tx>, s2: seq<Tx>, monthOf: string -> string)
    requires |s1| == |s2|
    requires forall i :: 0 <= i < |s1| ==>
      s1[i].txType == s2[i].txType && s1[i].amount == s2[i].amount && monthOf(s1[i].date) == monthOf(s2[i].date)
    ensures MonthlyData(s1, monthOf) == MonthlyData(s2, monthOf)
    decreases |s1|
  {
    if s1 != [] {
      MonthlyDependsOnlyOnLabels(s1[..|s1| - 1], s2[..|s2| - 1], monthOf);
    }
  }

  // ---------------------------------------------------------------------
  // The bar chart

  /** `months`: the labels of both maps, each once, sorted as strings. */
  function Months(md: MonthlyTotals): seq<string>
  {
    SortStrings(Dedup(Keys(md.income) + Keys(md.expenses)))
  }

  /** `months.map((month) => d[month] || 0)` */
  function Series(months: seq<string>, d: Dict): seq<int>
  {
    seq(|months|, i requires 0 <= i < |months| => Get(d, months[i]))
  }

  function SumInts(xs: seq<int>): int
  {
    if xs == [] then 0 else xs[0] + SumInts(xs[1..])
  }

  /** `months` is sorted in string order (so "Feb" comes before "Jan"),
      repeats no label and holds exactly the keys of the two maps. */
  lemma MonthsSortedUnion(md: MonthlyTotals)
    ensures Sorted(Months(md))
    ensures NoDuplicates(Months(md))
    ensures forall m :: m in Months(md) <==> m in Keys(md.income) || m in Keys(md.expenses)
  {
    var all := Keys(md.income) + Keys(md.expenses);
    SortStringsSorted(Dedup(all));
    SortStringsNoDuplicates(Dedup(all));
    forall m ensures m in Months(md) <==> m in all {
      assert m in Months(md) <==> m in multiset(Months(md));
    }
  }

  /** Both series have one entry per label; a label missing from a map
      reads 0. */
  lemma BarSeriesShape(md: MonthlyTotals)
    ensures |Series(Months(md), md.income)| == |Months(md)|
    ensures |Series(Months(md), md.expenses)| == |Months(md)|
    ensures forall i :: 0 <= i < |Months(md)| && Months(md)[i] !in Keys(md.income) ==>
      Series(Months(md), md.income)[i] == 0
    ensures forall i :: 0 <= i < |Months(md)| && Months(md)[i] !in Keys(md.expenses) ==>
      Series(Months(md), md.expenses)[i] == 0
  {
  }

  lemma {:induction false} SeriesOfEmpty(labels: seq<string>)
    ensures SumInts(Series(labels, [])) == 0
  {
    if labels != [] {
      SeriesOfEmpty(labels[1..]);
      assert Series(labels, [])[1..] == Series(labels[1..], []);
    }
  }

  /** Adding the entry (k, v) to a map without k raises the series total
      by v when k is a label, once. */
  lemma {:induction false} SeriesOfCons(labels: seq<string>, k: string, v: int, d: Dict)
    requires NoDuplicates(labels) && k in labels && k !in Keys(d)
    ensures SumInts(Series(labels, [(k, v)] + d)) == SumInts(Series(labels, d)) + v
  {
    var d' := [(k, v)] + d;
    var rest := labels[1..];
    assert Series(labels, d')[1..] == Series(rest, d');
    assert Series(labels, d)[1..] == Series(rest, d);
    if labels[0] == k {
      assert k !in rest;
      assert Series(rest, d') == Series(rest, d);
    } else {
      SeriesOfCons(rest, k, v, d);
    }
  }

  lemma {:induction false} SeriesSumsValues(labels: seq<string>, d: Dict)
    requires NoDuplicates(labels) && UniqueKeys(d)
    requires forall k :: k in Keys(d) ==> k in labels
    ensures SumInts(Series(labels, d)) == SumValues(d)
  {
    if d == [] {
      SeriesOfEmpty(labels);
    } else {
      SeriesSumsValues(labels, d[1..]);
      assert d == [(d[0].0, d[0].1)] + d[1..];
      SeriesOfCons(labels, d[0].0, d[0].1, d[1..]);
    }
  }

  /** The income bars add up to Home's income total and the expense bars to
      its expense total: each label appears once and covers its bucket. */
  lemma BarSeriesSumToTotals(s: seq<Tx>, monthOf: string -> string)
    ensures var md := MonthlyData(s, monthOf);
      && SumInts(Series(Months(md), md.income)) == TotalIncome(s)
      && SumInts(Series(Months(md), md.expenses)) == TotalExpenses(s)
  {
    var md := MonthlyData(s, monthOf);
    MonthlySumsMatchTotals(s, monthOf);
    MonthsSortedUnion(md);
    SeriesSumsValues(Months(md), md.income);
    SeriesSumsValues(Months(md), md.expenses);
  }
}
