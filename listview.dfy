/** The transaction list's filter (src/pages/TransactionList.tsx): a
    category choice, where "all" means no restriction, and a date string,
    where "" means no restriction. */
module ListView {
  import opened Schema
  import opened Seqs

  const AllCategories: string := "all"

  /** `(categoryFilter === 'all' || t.category === categoryFilter) &&
      (!dateFilter || t.date === dateFilter)`: the date is compared as a
      string, not as a range. */
  predicate Matches(t: Tx, categoryFilter: string, dateFilter: string)
  {
    (categoryFilter == AllCategories || t.category == categoryFilter)
    && (dateFilter == "" || t.date == dateFilter)
  }

  function Shows(categoryFilter: string, dateFilter: string): Tx -> bool
  {
    (t: Tx) => Matches(t, categoryFilter, dateFilter)
  }

  /** `filteredTransactions`, which the list shows and the exports receive. */
  function FilteredTransactions(s: seq<Tx>, categoryFilter: string, dateFilter: string): seq<Tx>
  {
    Filter(s, Shows(categoryFilter, dateFilter))
  }

  /** The filtered list keeps the store's order, and a record is in it
      exactly when it matches both filters, as many times as in the store. */
  lemma FilteredKeepsExactlyMatches(s: seq<Tx>, categoryFilter: string, dateFilter: string)
    ensures var r := FilteredTransactions(s, categoryFilter, dateFilter);
      && IsSubsequence(r, s)
      && (forall i :: 0 <= i < |r| ==> Matches(r[i], categoryFilter, dateFilter))
      && (forall i :: 0 <= i < |s| && Matches(s[i], categoryFilter, dateFilter) ==> s[i] in r)
      && (forall x: Tx :: multiset(r)[x] == if Matches(x, categoryFilter, dateFilter) then multiset(s)[x] else 0)
  {
    var p := Shows(categoryFilter, dateFilter);
    FilterIsSubsequence(s, p);
    forall i | 0 <= i < |s| && Matches(s[i], categoryFilter, dateFilter)
      ensures s[i] in FilteredTransactions(s, categoryFilter, dateFilter)
    {
      FilterKeepsPassing(s, p, i);
    }
    forall x: Tx ensures multiset(Filter(s, p))[x] == if Matches(x, categoryFilter, dateFilter) then multiset(s)[x] else 0 {
      FilterCount(s, p, x);
    }
  }

  /** With no category and no date chosen the whole store is listed. */
  lemma NoFilterListsEverything(s: seq<Tx>)
    ensures FilteredTransactions(s, AllCategories, "") == s
  {
    FilterAllPass(s, Shows(AllCategories, ""));
  }

  /** Choosing a date narrows a category's list to its records of that day,
      in the same order. */
  lemma DateNarrowsCategory(s: seq<Tx>, categoryFilter: string, date: string)
    ensures FilteredTransactions(s, categoryFilter, date)
         == Filter(FilteredTransactions(s, categoryFilter, ""), Shows(AllCategories, date))
  {
    FilterFilter(s, Shows(categoryFilter, ""), Shows(AllCategories, date), Shows(categoryFilter, date));
  }
}
