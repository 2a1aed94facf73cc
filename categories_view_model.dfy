/**
 * `CategoriesViewModel`: the category detail list (which transactions it
 * shows and how they are sorted), category assignment with its bulk
 * follow-up, and the local edits of provider and transaction type.
 *
 * Repository calls are inputs: the transactions `getTransactions`
 * returns, and the outcome of each `assignCategoryToTransaction` call
 * (`None` when the call threw). Each launched coroutine is one step.
 */
module CategoriesViewModel {
  import opened Common
  import opened Sorting
  import opened TransactionOrder
  import TransactionRepository

  datatype TransactionSortField = DateField | AmountField | DescriptionField
  datatype SortOrder = Ascending | Descending
  datatype TransactionType = Expense | Income
  /** `Result<Unit>`. */
  datatype Outcome = Success | Failure

  // ------------------------------------------------------------ sorting

  function Toggled(order: SortOrder): (r: SortOrder)
    ensures r != order
  {
    if order == Ascending then Descending else Ascending
  }

  lemma ToggleTwice(order: SortOrder)
    ensures Toggled(Toggled(order)) == order
  {
  }

  /** `description ?: ""`. */
  function DescriptionKey(t: Transaction): string {
    OrElse(t.description, "")
  }

  predicate ByDescription(a: Transaction, b: Transaction) {
    StringLe(DescriptionKey(a), DescriptionKey(b))
  }

  lemma ByDescriptionPreorder()
    ensures TotalPreorder(ByDescription)
  {
    StringPreorder();
    KeyPreorder(ByDescription, DescriptionKey, StringLe);
  }

  /** The comparator `sortedBy` (ascending) or `sortedByDescending` uses for a field. */
  function Comparator(field: TransactionSortField, order: SortOrder): (Transaction, Transaction) -> bool {
    var le := match field
      case DateField => ByDate
      case AmountField => ByAmount
      case DescriptionField => ByDescription;
    if order == Ascending then le else Flip(le)
  }

  lemma ComparatorPreorder(field: TransactionSortField, order: SortOrder)
    ensures TotalPreorder(Comparator(field, order))
  {
    ByDatePreorder();
    ByAmountPreorder();
    ByDescriptionPreorder();
    FlipPreorder(ByDate);
    FlipPreorder(ByAmount);
    FlipPreorder(ByDescription);
  }

  /** The list sorted by the current field and order. */
  function SortedBy(ts: seq<Transaction>, field: TransactionSortField, order: SortOrder): (r: seq<Transaction>)
    ensures |r| == |ts| && multiset(r) == multiset(ts)
  {
    SortBy(ts, Comparator(field, order))
  }

  /** The sorted list is ordered, a permutation, and keeps equal elements in their order. */
  lemma SortedByIsStableSort(ts: seq<Transaction>, field: TransactionSortField, order: SortOrder)
    ensures Sorted(SortedBy(ts, field, order), Comparator(field, order))
    ensures multiset(SortedBy(ts, field, order)) == multiset(ts)
    ensures forall z :: Peers(SortedBy(ts, field, order), Comparator(field, order), z) == Peers(ts, Comparator(field, order), z)
  {
    var le := Comparator(field, order);
    ComparatorPreorder(field, order);
    SortBySorted(ts, le);
    forall z ensures Peers(SortBy(ts, le), le, z) == Peers(ts, le, z) {
      SortByStable(ts, le, z);
    }
  }

  /** Sorting an already sorted list again by the same field and order changes nothing. */
  lemma SortedByIdempotent(ts: seq<Transaction>, field: TransactionSortField, order: SortOrder)
    ensures SortedBy(SortedBy(ts, field, order), field, order) == SortedBy(ts, field, order)
  {
    var le := Comparator(field, order);
    var o := SortedBy(ts, field, order);
    ComparatorPreorder(field, order);
    SortedByIsStableSort(ts, field, order);
    SortByIsStableSort(o, o, le);
  }

  // ------------------------------------------------------------ the category detail list

  /** The category stands for "Uncategorized/Other": the placeholder's id, no id, or the placeholder's name. */
  predicate IsEffectivelyUncategorized(category: Category, placeholder: Category) {
    category.id == placeholder.id || category.id.None? || category.name == placeholder.name
  }

  /** A transaction with a null or empty `categoryId`. */
  predicate HasNoCategory(t: Transaction) {
    t.categoryId.None? || t.categoryId == Some("")
  }

  /** Step 1 of `loadTransactionsForCategory`: the transactions the category stands for. */
  function TransactionsOfCategory(category: Category, placeholder: Category, all: seq<Transaction>, categories: seq<Category>)
    : (r: seq<Transaction>)
    ensures IsSubsequence(r, all)
    ensures IsEffectivelyUncategorized(category, placeholder) ==> forall t :: t in r <==> t in all && HasNoCategory(t)
    ensures IsEffectivelyUncategorized(category, placeholder) ==>
              forall t :: multiset(r)[t] == if HasNoCategory(t) then multiset(all)[t] else 0
    ensures !IsEffectivelyUncategorized(category, placeholder) ==>
              category.id.Some? && r == TransactionRepository.TransactionsByCategory(all, categories, category.id.value)
  {
    if IsEffectivelyUncategorized(category, placeholder) then
      FilterIsSubsequence(all, HasNoCategory);
      FilterCounts(all, HasNoCategory);
      Filter(all, HasNoCategory)
    else
      TransactionRepository.TransactionsByCategory(all, categories, category.id.value)
  }

  /** The whole list `loadTransactionsForCategory` publishes: selected, filtered by date and type, sorted. */
  function CategoryList(category: Category, placeholder: Category, all: seq<Transaction>, categories: seq<Category>,
                        transactionType: TransactionType, year: Option<int>, month: Option<int>,
                        field: TransactionSortField, order: SortOrder): (r: seq<Transaction>)
    ensures forall t :: t in r ==> TransactionRepository.MatchesFilter(t, year, month, Some(transactionType == Income))
  {
    var selected := TransactionsOfCategory(category, placeholder, all, categories);
    var filtered := TransactionRepository.FilterTransactions(selected, year, month, Some(transactionType == Income));
    SortedByMembers(filtered, field, order);
    SortedBy(filtered, field, order)
  }

  /** The three steps `CategoryList` is made of. */
  lemma CategoryListSteps(category: Category, placeholder: Category, all: seq<Transaction>, categories: seq<Category>,
                          transactionType: TransactionType, year: Option<int>, month: Option<int>,
                          field: TransactionSortField, order: SortOrder)
    ensures CategoryList(category, placeholder, all, categories, transactionType, year, month, field, order)
            == SortedBy(TransactionRepository.FilterTransactions(TransactionsOfCategory(category, placeholder, all, categories),
                                                                 year, month, Some(transactionType == Income)), field, order)
  {
  }

  /** Sorting neither adds nor drops a transaction. */
  lemma SortedByMembers(ts: seq<Transaction>, field: TransactionSortField, order: SortOrder)
    ensures forall t :: t in SortedBy(ts, field, order) <==> t in ts
  {
    var r := SortedBy(ts, field, order);
    forall t ensures t in r <==> t in ts {
      assert t in r <==> t in multiset(r);
      assert t in ts <==> t in multiset(ts);
    }
  }

  /** Every listed transaction is of the asked type and period, and comes from the category's selection. */
  lemma CategoryListMembers(category: Category, placeholder: Category, all: seq<Transaction>, categories: seq<Category>,
                            transactionType: TransactionType, year: Option<int>, month: Option<int>,
                            field: TransactionSortField, order: SortOrder)
    ensures var r := CategoryList(category, placeholder, all, categories, transactionType, year, month, field, order);
            forall t :: t in r <==> t in TransactionsOfCategory(category, placeholder, all, categories)
                                    && TransactionRepository.MatchesFilter(t, year, month, Some(transactionType == Income))
  {
    var selected := TransactionsOfCategory(category, placeholder, all, categories);
    var filtered := TransactionRepository.FilterTransactions(selected, year, month, Some(transactionType == Income));
    var r := SortedBy(filtered, field, order);
    forall t ensures t in r <==> t in filtered {
      assert t in r <==> t in multiset(r);
      assert t in filtered <==> t in multiset(filtered);
    }
  }

  // ------------------------------------------------------------ local edits

  /** `map { if (tx.id == id) tx.copy(provider = p) else tx }`. */
  function WithProvider(ts: seq<Transaction>, id: string, provider: string): (r: seq<Transaction>)
    ensures |r| == |ts|
    ensures forall i :: 0 <= i < |ts| ==>
              (ts[i].id == Some(id) ==> r[i] == ts[i].(provider := Some(provider)))
              && (ts[i].id != Some(id) ==> r[i] == ts[i])
  {
    if ts == [] then []
    else [if ts[0].id == Some(id) then ts[0].(provider := Some(provider)) else ts[0]] + WithProvider(ts[1..], id, provider)
  }

  /** Editing the same provider twice is editing it once, and no id changes. */
  lemma WithProviderIdempotent(ts: seq<Transaction>, id: string, provider: string)
    ensures WithProvider(WithProvider(ts, id, provider), id, provider) == WithProvider(ts, id, provider)
    ensures forall i :: 0 <= i < |ts| ==> WithProvider(ts, id, provider)[i].id == ts[i].id
  {
    var once := WithProvider(ts, id, provider);
    var twice := WithProvider(once, id, provider);
    forall i | 0 <= i < |ts| ensures twice[i] == once[i] {
      assert once[i].id == ts[i].id;
    }
  }

  /** `map { if (it.id == id) updated else it }`. */
  function ReplaceById(ts: seq<Transaction>, id: string, updated: Transaction): (r: seq<Transaction>)
    ensures |r| == |ts|
    ensures forall i :: 0 <= i < |ts| ==>
              (ts[i].id == Some(id) ==> r[i] == updated) && (ts[i].id != Some(id) ==> r[i] == ts[i])
  {
    if ts == [] then []
    else [if ts[0].id == Some(id) then updated else ts[0]] + ReplaceById(ts[1..], id, updated)
  }

  /** The index of the first transaction with that id, from `i` on. */
  function IndexOfId(ts: seq<Transaction>, id: string, i: nat): (r: Option<nat>)
    decreases |ts| - i
    ensures r.Some? ==> i <= r.value < |ts| && ts[r.value].id == Some(id)
                        && forall j :: i <= j < r.value ==> ts[j].id != Some(id)
    ensures r.None? ==> forall j :: i <= j < |ts| ==> ts[j].id != Some(id)
  {
    if i >= |ts| then None
    else if ts[i].id == Some(id) then Some(i)
    else IndexOfId(ts, id, i + 1)
  }

  /** `find { it.id == id }`. */
  function FindById(ts: seq<Transaction>, id: string): (r: Option<Transaction>)
    ensures r.None? <==> forall i :: 0 <= i < |ts| ==> ts[i].id != Some(id)
    ensures r.Some? ==> r.value.id == Some(id)
  {
    match IndexOfId(ts, id, 0)
    case None => None
    case Some(k) => Some(ts[k])
  }

  /** With an id no transaction has, replacing changes nothing. */
  lemma ReplaceUnknownId(ts: seq<Transaction>, id: string, updated: Transaction)
    requires FindById(ts, id).None?
    ensures ReplaceById(ts, id, updated) == ts
  {
  }

  /** `it.provider == provider && it.categoryId == null && it.id != originalId`. */
  predicate BulkCandidate(t: Transaction, provider: string, originalTransactionId: string) {
    t.provider == Some(provider) && t.categoryId.None? && t.id != Some(originalTransactionId)
  }

  /** The repository's answer to `assignCategoryToTransaction` for an id: `None` when it throws. */
  type AssignOracle = string -> Option<bool>

  predicate BulkUpdated(t: Transaction, assign: AssignOracle) {
    t.id.Some? && assign(t.id.value) == Some(true)
  }

  class CategoriesViewModel {
    var selectedTransactionType: TransactionType
    var allTransactions: seq<Transaction>
    var categoryTransactions: seq<Transaction>
    var selectedCategory: Option<Category>
    var selectedYear: Option<int>
    var selectedMonth: Option<int>
    var sortField: TransactionSortField
    var sortOrder: SortOrder
    var isLoading: bool
    var isAssigningCategory: bool
    var assignmentResult: Option<Outcome>

    /** The initial state; `today` is `LocalDate.now()`. */
    constructor (today: Date)
      ensures selectedTransactionType == Expense && sortField == DateField && sortOrder == Descending
      ensures selectedYear == Some(today.year) && selectedMonth == Some(today.month)
      ensures allTransactions == [] && categoryTransactions == [] && selectedCategory == None
      ensures !isLoading && !isAssigningCategory && assignmentResult == None
    {
      selectedTransactionType := Expense;
      allTransactions := [];
      categoryTransactions := [];
      selectedCategory := None;
      selectedYear := Some(today.year);
      selectedMonth := Some(today.month);
      sortField := DateField;
      sortOrder := Descending;
      isLoading := false;
      isAssigningCategory := false;
      assignmentResult := None;
    }

    /** `selectTransactionType`: `reload` says whether `loadCategorySpending` runs. */
    method SelectTransactionType(transactionType: TransactionType) returns (reload: bool)
      modifies this
      ensures reload <==> old(selectedTransactionType) != transactionType
      ensures selectedTransactionType == transactionType
      ensures allTransactions == old(allTransactions) && categoryTransactions == old(categoryTransactions)
      ensures sortField == old(sortField) && sortOrder == old(sortOrder)
    {
      reload := false;
      if selectedTransactionType != transactionType {
        selectedTransactionType := transactionType;
        reload := true;
      }
    }

    /** `applySorting`. */
    method ApplySorting()
      modifies this
      ensures categoryTransactions == SortedBy(old(categoryTransactions), sortField, sortOrder)
      ensures sortField == old(sortField) && sortOrder == old(sortOrder) && allTransactions == old(allTransactions)
      ensures selectedTransactionType == old(selectedTransactionType) && selectedCategory == old(selectedCategory)
    {
      categoryTransactions := SortedBy(categoryTransactions, sortField, sortOrder);
    }

    /**
     * `updateSort`: the current field without an explicit order toggles the
     * order; anything else sets the field and the order, ascending by default.
     */
    method UpdateSort(field: TransactionSortField, order: Option<SortOrder>)
      modifies this
      ensures sortField == field
      ensures old(sortField) == field && order.None? ==> sortOrder == Toggled(old(sortOrder))
      ensures old(sortField) != field || order.Some? ==> sortOrder == OrElse(order, Ascending)
      ensures categoryTransactions == SortedBy(old(categoryTransactions), sortField, sortOrder)
      ensures allTransactions == old(allTransactions) && selectedTransactionType == old(selectedTransactionType)
    {
      if sortField == field && order.None? {
        sortOrder := Toggled(sortOrder);
      } else {
        sortField := field;
        sortOrder := OrElse(order, Ascending);
      }
      ApplySorting();
    }

    /**
     * `loadTransactionsForCategory`, run to completion. `repositoryTransactions`
     * is what the repository holds; `None` stands for a call that threw.
     */
    method LoadTransactionsForCategory(category: Category, transactionType: TransactionType, placeholder: Category,
                                       repositoryTransactions: Option<seq<Transaction>>, categories: seq<Category>)
      modifies this
      ensures repositoryTransactions.None? ==> categoryTransactions == []
      ensures repositoryTransactions.Some? ==>
                categoryTransactions == CategoryList(category, placeholder, repositoryTransactions.value, categories,
                                                     transactionType, selectedYear, selectedMonth, sortField, sortOrder)
      ensures !isLoading
      ensures allTransactions == old(allTransactions) && sortField == old(sortField) && sortOrder == old(sortOrder)
      ensures selectedYear == old(selectedYear) && selectedMonth == old(selectedMonth)
      ensures selectedTransactionType == old(selectedTransactionType) && selectedCategory == old(selectedCategory)
    {
      isLoading := true;
      if repositoryTransactions.None? {
        categoryTransactions := [];
      } else {
        var allTransactionsForCategory := TransactionsOfCategory(category, placeholder, repositoryTransactions.value, categories);
        var filterIsIncome := transactionType == Income;
        var filteredTransactions := TransactionRepository.FilterTransactions(allTransactionsForCategory, selectedYear, selectedMonth, Some(filterIsIncome));
        CategoryListSteps(category, placeholder, repositoryTransactions.value, categories,
                          transactionType, selectedYear, selectedMonth, sortField, sortOrder);
        categoryTransactions := SortedBy(filteredTransactions, sortField, sortOrder);
      }
      isLoading := false;
    }

    /**
     * `assignCategoryToTransaction(transaction, category)`, run to completion.
     * A null id on either side fails at once and the repository is not
     * called. `bulkProvider` is the provider `launchBulkCategorization`
     * then runs for, if any.
     */
    method AssignCategoryToTransaction(transaction: Transaction, category: Category, repositoryResult: Option<bool>)
      returns (repositoryCalled: bool, bulkProvider: Option<string>)
      modifies this
      ensures repositoryCalled <==> transaction.id.Some? && category.id.Some?
      ensures !repositoryCalled ==> assignmentResult == Some(Failure) && isAssigningCategory == old(isAssigningCategory)
      ensures repositoryCalled ==> !isAssigningCategory
      ensures repositoryCalled ==> assignmentResult == Some(if repositoryResult == Some(true) then Success else Failure)
      ensures bulkProvider.Some? <==> repositoryCalled && repositoryResult == Some(true) && !IsNullOrBlank(transaction.provider)
      ensures bulkProvider.Some? ==> bulkProvider == transaction.provider
      ensures allTransactions == old(allTransactions) && categoryTransactions == old(categoryTransactions)
    {
      var provider := transaction.provider;
      if transaction.id.None? || category.id.None? {
        assignmentResult := Some(Failure);
        return false, None;
      }
      repositoryCalled := true;
      isAssigningCategory := true;
      assignmentResult := None;
      var initialAssignmentSuccess := false;
      if repositoryResult == Some(true) {
        assignmentResult := Some(Success);
        initialAssignmentSuccess := true;
      } else {
        assignmentResult := Some(Failure);
      }
      isAssigningCategory := false;
      bulkProvider := None;
      if initialAssignmentSuccess && !IsNullOrBlank(provider) {
        bulkProvider := provider;
      }
    }

    /**
     * `launchBulkCategorization`: the candidates are taken from the cached
     * list, and each one with an id is sent to the repository; the count is
     * of the calls that succeeded.
     */
    method LaunchBulkCategorization(provider: string, categoryId: string, originalTransactionId: string, assign: AssignOracle)
      returns (transactionsToUpdate: seq<Transaction>, bulkUpdateCount: nat)
      ensures transactionsToUpdate == Filter(allTransactions, t => BulkCandidate(t, provider, originalTransactionId))
      ensures bulkUpdateCount == |Filter(transactionsToUpdate, t => BulkUpdated(t, assign))|
    {
      transactionsToUpdate := Filter(allTransactions, t => BulkCandidate(t, provider, originalTransactionId));
      bulkUpdateCount := 0;
      var i := 0;
      while i < |transactionsToUpdate|
        invariant 0 <= i <= |transactionsToUpdate|
        invariant bulkUpdateCount == |Filter(transactionsToUpdate[..i], t => BulkUpdated(t, assign))|
      {
        var txToUpdate := transactionsToUpdate[i];
        assert transactionsToUpdate[..i + 1] == transactionsToUpdate[..i] + [txToUpdate];
        FilterAppend(transactionsToUpdate[..i], [txToUpdate], t => BulkUpdated(t, assign));
        if txToUpdate.id.Some? {
          var success := assign(txToUpdate.id.value);
          if success == Some(true) {
            bulkUpdateCount := bulkUpdateCount + 1;
          }
        }
        i := i + 1;
      }
      assert transactionsToUpdate[..i] == transactionsToUpdate;
    }

    /** `updateLocalTransactionProvider`: both lists, only the transactions with that id. */
    method UpdateLocalTransactionProvider(transactionId: string, newProvider: string)
      modifies this
      ensures allTransactions == WithProvider(old(allTransactions), transactionId, newProvider)
      ensures categoryTransactions == WithProvider(old(categoryTransactions), transactionId, newProvider)
      ensures sortField == old(sortField) && sortOrder == old(sortOrder) && selectedCategory == old(selectedCategory)
      ensures assignmentResult == old(assignmentResult) && isLoading == old(isLoading)
    {
      allTransactions := WithProvider(allTransactions, transactionId, newProvider);
      categoryTransactions := WithProvider(categoryTransactions, transactionId, newProvider);
    }

    /**
     * `updateTransactionType`, run to completion. `updated` is what is sent
     * to the repository, and `updateSucceeded` says whether
     * `updateTransaction` returned rather than threw: a throw is caught
     * before the local list is touched. `reloadType` is the transaction type
     * the selected category's list is reloaded with, and None when it is not
     * reloaded.
     */
    method UpdateTransactionType(transactionId: string, newIsIncome: bool, updateSucceeded: bool)
      returns (updated: Option<Transaction>, reloadType: Option<TransactionType>)
      modifies this
      ensures updated.None? <==> FindById(old(allTransactions), transactionId).None?
      ensures updated.None? || !updateSucceeded ==> allTransactions == old(allTransactions) && reloadType.None?
      ensures updated.Some? ==>
                updated.value == FindById(old(allTransactions), transactionId).value.(isIncome := newIsIncome)
      ensures updated.Some? && updateSucceeded ==>
                allTransactions == ReplaceById(old(allTransactions), transactionId, updated.value)
      ensures reloadType.Some? ==> selectedCategory.Some? && updated.Some? && updateSucceeded
      ensures reloadType.Some? ==> reloadType.value == if newIsIncome then Income else Expense
      ensures updated.Some? && updateSucceeded && selectedCategory.Some? ==>
                (reloadType.Some? <==> (selectedCategory.value.id == updated.value.categoryId
                                        || (selectedCategory.value.id.None? && IsNullOrEmpty(updated.value.categoryId))))
      ensures !isLoading && categoryTransactions == old(categoryTransactions) && selectedCategory == old(selectedCategory)
    {
      isLoading := true;
      updated := None;
      reloadType := None;
      var transactionToUpdate := FindById(allTransactions, transactionId);
      if transactionToUpdate.Some? {
        var updatedTransaction := transactionToUpdate.value.(isIncome := newIsIncome);
        updated := Some(updatedTransaction);
        if updateSucceeded {
          allTransactions := ReplaceById(allTransactions, transactionId, updatedTransaction);
          if selectedCategory.Some? {
            var it := selectedCategory.value;
            if it.id == updatedTransaction.categoryId || (it.id.None? && IsNullOrEmpty(updatedTransaction.categoryId)) {
              reloadType := Some(if newIsIncome then Income else Expense);
            }
          }
        }
      }
      isLoading := false;
    }

    /** `clearAssignmentResult` and `resetAssignmentResult`. */
    method ClearAssignmentResult()
      modifies this
      ensures assignmentResult == None
      ensures isAssigningCategory == old(isAssigningCategory) && allTransactions == old(allTransactions)
      ensures categoryTransactions == old(categoryTransactions)
    {
      assignmentResult := None;
    }
  }

  /** The transaction whose type changed is the first one with that id, now of the other type. */
  lemma UpdatedTypeOnly(ts: seq<Transaction>, id: string, newIsIncome: bool)
    requires FindById(ts, id).Some?
    ensures var u := FindById(ts, id).value.(isIncome := newIsIncome);
            var r := ReplaceById(ts, id, u);
            forall i :: 0 <= i < |ts| ==>
              (ts[i].id == Some(id) ==> r[i].isIncome == newIsIncome && r[i].id == Some(id))
              && (ts[i].id != Some(id) ==> r[i] == ts[i])
  {
  }
}
