/**
 * `DashboardViewModel`: the month's income and expense sums, the five most
 * recent transactions, and the initial-sync control flow around them.
 *
 * The repository calls are inputs: `allTransactions` is what
 * `getTransactions` returned after the refresh (`None` when one of the
 * calls threw), and each sync step's outcome is given.
 */
module Dashboard {
  import opened Common
  import opened TransactionOrder
  import TransactionRepository

  predicate IsIncome(t: Transaction) {
    t.isIncome
  }

  predicate IsExpense(t: Transaction) {
    !t.isIncome
  }

  /** The summation loop: income and everything else, over the same transactions. */
  method IncomeAndExpenses(ts: seq<Transaction>) returns (expenseSum: real, incomeSum: real)
    ensures incomeSum == SumOf(Filter(ts, IsIncome), Amount)
    ensures expenseSum == SumOf(Filter(ts, IsExpense), Amount)
  {
    expenseSum := 0.0;
    incomeSum := 0.0;
    var i := 0;
    while i < |ts|
      invariant 0 <= i <= |ts|
      invariant incomeSum == SumOf(Filter(ts[..i], IsIncome), Amount)
      invariant expenseSum == SumOf(Filter(ts[..i], IsExpense), Amount)
    {
      var transaction := ts[i];
      SumStep(ts, i, IsIncome);
      SumStep(ts, i, IsExpense);
      if transaction.isIncome {
        incomeSum := incomeSum + transaction.amount;
      } else {
        expenseSum := expenseSum + transaction.amount;
      }
      i := i + 1;
    }
    assert ts[..i] == ts;
  }

  /** A filtered running sum grows by the next amount exactly when the filter keeps it. */
  lemma SumStep(ts: seq<Transaction>, i: nat, p: Transaction -> bool)
    requires i < |ts|
    ensures SumOf(Filter(ts[..i + 1], p), Amount)
         == SumOf(Filter(ts[..i], p), Amount) + (if p(ts[i]) then ts[i].amount else 0.0)
  {
    assert ts[..i + 1] == ts[..i] + [ts[i]];
    FilterAppend(ts[..i], [ts[i]], p);
    SumOfAppend(Filter(ts[..i], p), Filter([ts[i]], p), Amount);
  }

  /** Every transaction is counted once: income plus expenses is the total. */
  lemma IncomeAndExpensesPartition(ts: seq<Transaction>)
    ensures SumOf(Filter(ts, IsIncome), Amount) + SumOf(Filter(ts, IsExpense), Amount) == SumOf(ts, Amount)
  {
    SumOfPartition(ts, Amount, IsIncome, IsExpense);
  }

  /**
   * The month filter the dashboard applies: `Calendar.MONTH` is 0-based, but
   * `filterTransactions` compares it with the 1-based month of each date.
   */
  function CurrentMonthTransactions(all: seq<Transaction>, today: Date): (r: seq<Transaction>)
    ensures IsSubsequence(r, all)
    ensures forall t :: t in r <==> t in all && t.date.year == today.year && t.date.month == today.month - 1
    ensures forall t :: multiset(r)[t] == if t.date.year == today.year && t.date.month == today.month - 1 then multiset(all)[t] else 0
  {
    TransactionRepository.FilterTransactions(all, Some(today.year), Some(today.month - 1), None)
  }

  /** In January the month filter asks for month 0 and so finds nothing. */
  lemma {:induction false} JanuaryIsEmpty(all: seq<Transaction>, today: Date)
    requires today.month == 1
    requires forall t :: t in all ==> 1 <= t.date.month <= 12
    ensures CurrentMonthTransactions(all, today) == []
  {
    if all != [] {
      JanuaryIsEmpty(all[1..], today);
      assert all == [all[0]] + all[1..];
    }
  }

  /** The five most recent transactions, newest first. */
  function Recent(all: seq<Transaction>): (r: seq<Transaction>)
    ensures |r| <= 5
    ensures forall t :: t in r ==> t in all
  {
    LatestTaken(all, 5);
    Take(NewestFirst(all), 5)
  }

  datatype SyncOutcome = Success | Failure(message: Option<string>)

  class DashboardViewModel {
    var monthlyExpenses: real
    var monthlyIncome: real
    var recentTransactions: seq<Transaction>
    var isLoading: bool
    var isSyncing: bool
    var syncError: Option<string>
    /** The users whose initial sync the preferences record as complete. */
    var syncedUsers: set<string>

    constructor (syncedUsers: set<string>)
      ensures monthlyExpenses == 0.0 && monthlyIncome == 0.0 && recentTransactions == []
      ensures !isLoading && !isSyncing && syncError == None
      ensures this.syncedUsers == syncedUsers
    {
      monthlyExpenses := 0.0;
      monthlyIncome := 0.0;
      recentTransactions := [];
      isLoading := false;
      isSyncing := false;
      syncError := None;
      this.syncedUsers := syncedUsers;
    }

    /**
     * `loadDashboardData`, run to completion. The loading flag is raised and
     * cleared only when no sync is in progress; a failed load leaves the
     * sums and the recent list as they were.
     */
    method LoadDashboardData(allTransactions: Option<seq<Transaction>>, today: Date)
      modifies this
      ensures isSyncing == old(isSyncing) && syncError == old(syncError) && syncedUsers == old(syncedUsers)
      ensures isLoading == old(isLoading) || !isSyncing
      ensures !isSyncing ==> !isLoading
      ensures allTransactions.None? ==>
                monthlyExpenses == old(monthlyExpenses) && monthlyIncome == old(monthlyIncome)
                && recentTransactions == old(recentTransactions)
      ensures allTransactions.Some? ==>
                var month := CurrentMonthTransactions(allTransactions.value, today);
                monthlyIncome == SumOf(Filter(month, IsIncome), Amount)
                && monthlyExpenses == SumOf(Filter(month, IsExpense), Amount)
                && recentTransactions == Recent(allTransactions.value)
    {
      if !isSyncing {
        isLoading := true;
      }
      if allTransactions.Some? {
        var currentMonthTransactions := CurrentMonthTransactions(allTransactions.value, today);
        var expenseSum, incomeSum := IncomeAndExpenses(currentMonthTransactions);
        monthlyExpenses := expenseSum;
        monthlyIncome := incomeSum;
        recentTransactions := Recent(allTransactions.value);
      }
      if !isSyncing {
        isLoading := false;
      }
    }

    /**
     * `checkAndPerformInitialSync`: a completed sync only loads the data;
     * otherwise the category sync runs, then the transaction sync, and only
     * when both succeed is the sync marked complete and the data loaded.
     */
    method CheckAndPerformInitialSync(userId: string, categorySync: SyncOutcome, transactionSync: SyncOutcome,
                                      allTransactions: Option<seq<Transaction>>, today: Date)
      modifies this
      ensures userId in old(syncedUsers) ==>
                syncedUsers == old(syncedUsers) && isSyncing == old(isSyncing) && syncError == old(syncError)
      ensures userId !in old(syncedUsers) ==> !isSyncing && isLoading == old(isLoading)
      ensures userId !in old(syncedUsers) && categorySync.Failure? ==>
                syncedUsers == old(syncedUsers) && syncError == Some(FailureText(categorySync))
                && monthlyIncome == old(monthlyIncome) && monthlyExpenses == old(monthlyExpenses)
                && recentTransactions == old(recentTransactions)
      ensures userId !in old(syncedUsers) && categorySync.Success? && transactionSync.Failure? ==>
                syncedUsers == old(syncedUsers) && syncError == Some(FailureText(transactionSync))
                && monthlyIncome == old(monthlyIncome) && monthlyExpenses == old(monthlyExpenses)
                && recentTransactions == old(recentTransactions)
      ensures userId !in old(syncedUsers) && categorySync.Success? && transactionSync.Success? ==>
                syncedUsers == old(syncedUsers) + {userId} && syncError == None
      ensures userId in syncedUsers <==> userId in old(syncedUsers) || (categorySync.Success? && transactionSync.Success?)
      ensures userId in old(syncedUsers) ==> (!isSyncing ==> !isLoading) && (isSyncing ==> isLoading == old(isLoading))
      ensures userId in old(syncedUsers) || (categorySync.Success? && transactionSync.Success?) ==>
                (allTransactions.Some? ==>
                   var month := CurrentMonthTransactions(allTransactions.value, today);
                   monthlyIncome == SumOf(Filter(month, IsIncome), Amount)
                   && monthlyExpenses == SumOf(Filter(month, IsExpense), Amount)
                   && recentTransactions == Recent(allTransactions.value))
                && (allTransactions.None? ==>
                      monthlyIncome == old(monthlyIncome) && monthlyExpenses == old(monthlyExpenses)
                      && recentTransactions == old(recentTransactions))
    {
      if userId in syncedUsers {
        LoadDashboardData(allTransactions, today);
        return;
      }
      isSyncing := true;
      syncError := None;
      if categorySync.Failure? {
        syncError := Some(FailureText(categorySync));
      } else if transactionSync.Failure? {
        syncError := Some(FailureText(transactionSync));
      } else {
        syncedUsers := syncedUsers + {userId};
        LoadDashboardData(allTransactions, today);
      }
      isSyncing := false;
    }
  }

  /** `"Sync failed: ${e.message}"`; Kotlin writes a null message as "null". */
  function FailureText(outcome: SyncOutcome): (r: string)
    requires outcome.Failure?
    ensures |r| >= 13 && r[..13] == "Sync failed: "
    ensures outcome.message.Some? ==> r[13..] == outcome.message.value
  {
    "Sync failed: " + OrElse(outcome.message, "null")
  }
}
