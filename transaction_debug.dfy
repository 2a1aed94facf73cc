/**
 * `TransactionDebugViewModel`: the debug screen's canned queries over the
 * repository's transactions. The transactions and today's date are inputs.
 */
module TransactionDebug {
  import opened Common
  import opened TransactionOrder

  datatype QueryType = All | ThisMonth | IncomeOnly | ExpensesOnly | Uncategorized

  /** The cap of every query but THIS_MONTH. */
  const Cap: nat := 50

  predicate InMonthOf(t: Transaction, today: Date) {
    t.date.month == today.month && t.date.year == today.year
  }

  predicate IsIncome(t: Transaction) {
    t.isIncome
  }

  predicate IsExpense(t: Transaction) {
    !t.isIncome
  }

  /** `categoryId.isNullOrEmpty()`. */
  predicate IsUncategorized(t: Transaction) {
    IsNullOrEmpty(t.categoryId)
  }

  /** The rows a query keeps, before ordering and the cap. */
  predicate Selected(t: Transaction, queryType: QueryType, today: Date) {
    match queryType
    case All => true
    case ThisMonth => InMonthOf(t, today)
    case IncomeOnly => t.isIncome
    case ExpensesOnly => !t.isIncome
    case Uncategorized => IsUncategorized(t)
  }

  /** The filter of each branch of the `when (queryType)` block. */
  function SelectedRows(all: seq<Transaction>, queryType: QueryType, today: Date): (r: seq<Transaction>)
    ensures IsSubsequence(r, all)
    ensures forall t :: t in r <==> t in all && Selected(t, queryType, today)
    ensures forall t :: multiset(r)[t] == if Selected(t, queryType, today) then multiset(all)[t] else 0
  {
    match queryType
    case All => SubsequenceOfSelf(all); all
    case ThisMonth =>
      FilterIsSubsequence(all, t => InMonthOf(t, today));
      FilterCounts(all, t => InMonthOf(t, today));
      Filter(all, t => InMonthOf(t, today))
    case IncomeOnly =>
      FilterIsSubsequence(all, IsIncome);
      FilterCounts(all, IsIncome);
      Filter(all, IsIncome)
    case ExpensesOnly =>
      FilterIsSubsequence(all, IsExpense);
      FilterCounts(all, IsExpense);
      Filter(all, IsExpense)
    case Uncategorized =>
      FilterIsSubsequence(all, IsUncategorized);
      FilterCounts(all, IsUncategorized);
      Filter(all, IsUncategorized)
  }

  /** The `when (queryType)` block: the branch's rows newest first, capped except for THIS_MONTH. */
  function Query(all: seq<Transaction>, queryType: QueryType, today: Date): (r: seq<Transaction>)
    ensures queryType != ThisMonth ==> |r| == if Cap < |SelectedRows(all, queryType, today)| then Cap else |SelectedRows(all, queryType, today)|
    ensures queryType == ThisMonth ==> |r| == |SelectedRows(all, queryType, today)|
  {
    var kept := SelectedRows(all, queryType, today);
    if queryType == ThisMonth then NewestFirst(kept) else Take(NewestFirst(kept), Cap)
  }

  /** The query keeps only the rows it selects, newest first. */
  lemma QueryShape(all: seq<Transaction>, queryType: QueryType, today: Date)
    ensures var r := Query(all, queryType, today);
            (forall t :: t in r ==> t in all && Selected(t, queryType, today))
            && (forall i, j :: 0 <= i < j < |r| ==> DateLe(r[j].date, r[i].date))
            && (queryType != ThisMonth ==> |r| <= Cap)
  {
    var kept := SelectedRows(all, queryType, today);
    var n := if queryType == ThisMonth then |kept| else Cap;
    assert Query(all, queryType, today) == Take(NewestFirst(kept), n);
    LatestTaken(kept, n);
    NewestFirstOrdered(kept);
  }

  /** THIS_MONTH is not capped: every transaction of the month is listed. */
  lemma ThisMonthIsComplete(all: seq<Transaction>, today: Date)
    ensures forall t :: t in all && InMonthOf(t, today) ==> t in Query(all, ThisMonth, today)
  {
    var kept := SelectedRows(all, ThisMonth, today);
    forall t | t in all && InMonthOf(t, today) ensures t in Query(all, ThisMonth, today) {
      assert t in kept;
      assert t in multiset(kept);
      assert t in multiset(NewestFirst(kept));
    }
  }

  /** The capped queries list the latest selected rows: none left out is later than one listed. */
  lemma CappedQueryIsLatest(all: seq<Transaction>, queryType: QueryType, today: Date, t: Transaction)
    requires queryType != ThisMonth
    requires t in all && Selected(t, queryType, today) && t !in Query(all, queryType, today)
    ensures |Query(all, queryType, today)| == Cap
    ensures forall u :: u in Query(all, queryType, today) ==> DateLe(t.date, u.date)
  {
    var kept := SelectedRows(all, queryType, today);
    var s := NewestFirst(kept);
    var taken := Take(s, Cap);
    assert Query(all, queryType, today) == taken;
    assert t in multiset(kept);
    assert t in multiset(s);
    var j :| 0 <= j < |s| && s[j] == t;
    LatestTaken(kept, Cap);
    assert j >= Cap;
    forall u | u in taken ensures DateLe(t.date, u.date) {
      var i :| 0 <= i < |taken| && taken[i] == u;
    }
  }

  class TransactionDebugViewModel {
    var transactions: seq<Transaction>
    var queryType: QueryType
    var isLoading: bool

    constructor ()
      ensures transactions == [] && queryType == All && !isLoading
    {
      transactions := [];
      queryType := All;
      isLoading := false;
    }

    /** `loadTransactions`; `all` is `None` when the repository threw, which keeps the old list. */
    method LoadTransactions(all: Option<seq<Transaction>>, today: Date)
      modifies this
      ensures all.Some? ==> transactions == Query(all.value, queryType, today)
      ensures all.None? ==> transactions == old(transactions)
      ensures queryType == old(queryType) && !isLoading
    {
      isLoading := true;
      if all.Some? {
        transactions := Query(all.value, queryType, today);
      }
      isLoading := false;
    }

    /** `setQueryType`: the type is stored first, so the reload answers the new query. */
    method SetQueryType(newType: QueryType, all: Option<seq<Transaction>>, today: Date)
      modifies this
      ensures queryType == newType
      ensures all.Some? ==> transactions == Query(all.value, newType, today)
      ensures all.None? ==> transactions == old(transactions)
      ensures !isLoading
    {
      queryType := newType;
      LoadTransactions(all, today);
    }
  }
}
