/**
 * `TransactionListViewModel`: the transaction list sorted by the saved
 * order and joined with the categories by id, and single-transaction
 * category assignment.
 *
 * The repository calls are inputs: the transactions `getTransactions`
 * returns for the screen's provider and date filters (or the message of
 * the exception it threw), the categories, and the assignment's outcome.
 */
module TransactionListViewModel {
  import opened Common
  import opened Sorting
  import opened TransactionOrder
  import DefaultCategories

  datatype SortOrder = DateDesc | DateAsc | AmountDesc | AmountAsc
  datatype Outcome = Success | Failure

  /** A transaction with the name and color of its category. */
  datatype TransactionUiModel = TransactionUiModel(transaction: Transaction, categoryName: Option<string>, categoryColor: Option<int>)

  /** A repository call that returns a value or throws with a message. */
  datatype Loaded<T> = Loaded(value: T) | Threw(message: string)

  function Comparator(order: SortOrder): (Transaction, Transaction) -> bool {
    match order
    case DateDesc => Flip(ByDate)
    case DateAsc => ByDate
    case AmountDesc => Flip(ByAmount)
    case AmountAsc => ByAmount
  }

  lemma ComparatorPreorder(order: SortOrder)
    ensures TotalPreorder(Comparator(order))
  {
    ByDatePreorder();
    ByAmountPreorder();
    FlipPreorder(ByDate);
    FlipPreorder(ByAmount);
  }

  /** The `when (sortOrder)` block. */
  function Ordered(ts: seq<Transaction>, order: SortOrder): (r: seq<Transaction>)
    ensures |r| == |ts| && multiset(r) == multiset(ts)
  {
    SortBy(ts, Comparator(order))
  }

  /** The list is a stable sort: ordered by the saved order, a permutation, equal keys kept in order. */
  lemma OrderedIsStableSort(ts: seq<Transaction>, order: SortOrder)
    ensures Sorted(Ordered(ts, order), Comparator(order))
    ensures forall z :: Peers(Ordered(ts, order), Comparator(order), z) == Peers(ts, Comparator(order), z)
  {
    ComparatorPreorder(order);
    SortBySorted(ts, Comparator(order));
    forall z ensures Peers(Ordered(ts, order), Comparator(order), z) == Peers(ts, Comparator(order), z) {
      SortByStable(ts, Comparator(order), z);
    }
  }

  /** DATE_DESC puts the latest first. */
  lemma DateDescIsNewestFirst(ts: seq<Transaction>)
    ensures forall i, j :: 0 <= i < j < |ts| ==> DateLe(Ordered(ts, DateDesc)[j].date, Ordered(ts, DateDesc)[i].date)
  {
    var o := Ordered(ts, DateDesc);
    OrderedIsStableSort(ts, DateDesc);
    forall i, j | 0 <= i < j < |ts| ensures DateLe(o[j].date, o[i].date) {
      assert Flip(ByDate)(o[i], o[j]);
    }
  }

  /** AMOUNT_ASC puts the smallest amount first. */
  lemma AmountAscIsSmallestFirst(ts: seq<Transaction>)
    ensures forall i, j :: 0 <= i < j < |ts| ==> Ordered(ts, AmountAsc)[i].amount <= Ordered(ts, AmountAsc)[j].amount
  {
    var o := Ordered(ts, AmountAsc);
    OrderedIsStableSort(ts, AmountAsc);
    forall i, j | 0 <= i < j < |ts| ensures o[i].amount <= o[j].amount {
      assert ByAmount(o[i], o[j]);
    }
  }

  // ------------------------------------------------------------ the category join

  /** `associateBy { it.id }`: later categories overwrite earlier ones with the same id. */
  function AssociateById(categories: seq<Category>): (m: map<Option<string>, Category>)
    ensures forall k :: k in m <==> exists i :: 0 <= i < |categories| && categories[i].id == k
  {
    if categories == [] then map[]
    else
      var init := categories[..|categories| - 1];
      var last := categories[|categories| - 1];
      var m := AssociateById(init)[last.id := last];
      assert forall k :: k in m <==> exists i :: 0 <= i < |categories| && categories[i].id == k by {
        forall k ensures k in m <==> exists i :: 0 <= i < |categories| && categories[i].id == k {
          if k in AssociateById(init) && k != last.id {
            var i :| 0 <= i < |init| && init[i].id == k;
            assert categories[i] == init[i];
          }
          if exists i :: 0 <= i < |categories| && categories[i].id == k {
            var i :| 0 <= i < |categories| && categories[i].id == k;
            if i < |init| {
              assert init[i] == categories[i];
            }
          }
        }
      }
      m
  }

  /** The reference definition: the last category with that id. */
  function LastWithId(categories: seq<Category>, id: Option<string>): (r: Option<Category>)
    ensures r.None? <==> forall i :: 0 <= i < |categories| ==> categories[i].id != id
    ensures r.Some? ==> exists i :: 0 <= i < |categories| && categories[i] == r.value && r.value.id == id
                                    && forall j :: i < j < |categories| ==> categories[j].id != id
  {
    if categories == [] then None
    else
      var last := categories[|categories| - 1];
      if last.id == id then Some(last)
      else
        var r := LastWithId(categories[..|categories| - 1], id);
        assert r.Some? ==> exists i :: 0 <= i < |categories| && categories[i] == r.value && r.value.id == id
                                        && forall j :: i < j < |categories| ==> categories[j].id != id by {
          if r.Some? {
            var init := categories[..|categories| - 1];
            var i :| 0 <= i < |init| && init[i] == r.value && r.value.id == id
                     && forall j :: i < j < |init| ==> init[j].id != id;
            assert categories[i] == init[i];
            assert forall j :: i < j < |categories| ==> categories[j].id != id by {
              forall j | i < j < |categories| ensures categories[j].id != id {
                if j < |init| {
                  assert categories[j] == init[j];
                }
              }
            }
          }
        }
        assert r.None? <==> forall i :: 0 <= i < |categories| ==> categories[i].id != id by {
          var init := categories[..|categories| - 1];
          assert forall i :: 0 <= i < |init| ==> categories[i] == init[i];
          if r.None? {
            forall i | 0 <= i < |categories| ensures categories[i].id != id {
              if i < |init| {
                assert init[i].id != id;
              }
            }
          }
        }
        r
  }

  /** The map lookup is the last category with the id: with duplicate ids the last one wins. */
  lemma {:induction false} LookupIsLastWithId(categories: seq<Category>, id: Option<string>)
    ensures id in AssociateById(categories) <==> LastWithId(categories, id).Some?
    ensures id in AssociateById(categories) ==> AssociateById(categories)[id] == LastWithId(categories, id).value
  {
    if categories != [] {
      var init := categories[..|categories| - 1];
      LookupIsLastWithId(init, id);
    }
  }

  function UiModel(t: Transaction, categoryMap: map<Option<string>, Category>): (u: TransactionUiModel)
    ensures u.transaction == t
  {
    if t.categoryId in categoryMap then
      TransactionUiModel(t, Some(categoryMap[t.categoryId].name), Some(categoryMap[t.categoryId].color))
    else TransactionUiModel(t, None, None)
  }

  /** `transactions.map { tx -> TransactionUiModel(tx, category?.name, category?.color) }`. */
  function UiModels(ts: seq<Transaction>, categoryMap: map<Option<string>, Category>): (r: seq<TransactionUiModel>)
    ensures |r| == |ts|
    ensures forall i :: 0 <= i < |ts| ==> r[i] == UiModel(ts[i], categoryMap)
  {
    if ts == [] then [] else [UiModel(ts[0], categoryMap)] + UiModels(ts[1..], categoryMap)
  }

  /** Each item carries the last category with its id, or nothing when no category has it. */
  lemma ItemCategory(t: Transaction, categories: seq<Category>)
    ensures var u := UiModel(t, AssociateById(categories));
            var c := LastWithId(categories, t.categoryId);
            (c.None? ==> u.categoryName.None? && u.categoryColor.None?)
            && (c.Some? ==> u.categoryName == Some(c.value.name) && u.categoryColor == Some(c.value.color))
  {
    LookupIsLastWithId(categories, t.categoryId);
  }

  /**
   * Lookups go by `categoryId` as it is, null included: with the default
   * categories, which have no ids, an uncategorised transaction shows the
   * last of them, "Other".
   */
  lemma UncategorizedShowsLastDefault(t: Transaction)
    requires t.categoryId.None?
    ensures UiModel(t, AssociateById(DefaultCategories.Defaults())).categoryName == Some("Other")
  {
    var ds := DefaultCategories.Defaults();
    var last := ds[|ds| - 1];
    assert last.id.None? && last.name == "Other";
    assert LastWithId(ds, None) == Some(last);
    ItemCategory(t, ds);
  }

  class TransactionListViewModel {
    var transactionItems: seq<TransactionUiModel>
    var isLoading: bool
    var error: Option<string>
    /** The order saved in the `SavedStateHandle`. */
    var sortOrder: SortOrder
    var isAssigningCategory: bool
    var assignmentResult: Option<Outcome>

    /** The state before `init` loads; the saved order defaults to DATE_DESC. */
    constructor (savedSortOrder: Option<SortOrder>)
      ensures sortOrder == OrElse(savedSortOrder, DateDesc)
      ensures transactionItems == [] && !isLoading && error == None
      ensures !isAssigningCategory && assignmentResult == None
    {
      transactionItems := [];
      isLoading := false;
      error := None;
      sortOrder := OrElse(savedSortOrder, DateDesc);
      isAssigningCategory := false;
      assignmentResult := None;
    }

    /** `loadTransactions`, run to completion. */
    method LoadTransactions(transactions: Loaded<seq<Transaction>>, categories: Loaded<seq<Category>>)
      modifies this
      ensures transactions.Loaded? && categories.Loaded? ==>
                transactionItems == UiModels(Ordered(transactions.value, sortOrder), AssociateById(categories.value))
                && error == None
      ensures transactions.Threw? ==> transactionItems == old(transactionItems)
                                      && error == Some("Failed to load transactions: " + transactions.message)
      ensures transactions.Loaded? && categories.Threw? ==>
                transactionItems == old(transactionItems) && error == Some("Failed to load transactions: " + categories.message)
      ensures !isLoading && sortOrder == old(sortOrder)
      ensures isAssigningCategory == old(isAssigningCategory) && assignmentResult == old(assignmentResult)
    {
      isLoading := true;
      error := None;
      if transactions.Threw? {
        error := Some("Failed to load transactions: " + transactions.message);
      } else if categories.Threw? {
        error := Some("Failed to load transactions: " + categories.message);
      } else {
        var sorted := Ordered(transactions.value, sortOrder);
        var categoryMap := AssociateById(categories.value);
        transactionItems := UiModels(sorted, categoryMap);
      }
      isLoading := false;
    }

    /** `updateSortOrder`: the order is saved, then the list reloads with it. */
    method UpdateSortOrder(newSortOrder: SortOrder, transactions: Loaded<seq<Transaction>>, categories: Loaded<seq<Category>>)
      modifies this
      ensures sortOrder == newSortOrder
      ensures transactions.Loaded? && categories.Loaded? ==>
                transactionItems == UiModels(Ordered(transactions.value, newSortOrder), AssociateById(categories.value))
    {
      sortOrder := newSortOrder;
      LoadTransactions(transactions, categories);
    }

    /**
     * `assignCategoryToTransaction`, run to completion; `repositoryResult`
     * is `None` when the call threw. `reload` says whether the list reloads.
     */
    method AssignCategoryToTransaction(repositoryResult: Option<bool>) returns (reload: bool)
      modifies this
      ensures assignmentResult == Some(if repositoryResult == Some(true) then Success else Failure)
      ensures reload <==> repositoryResult == Some(true)
      ensures !isAssigningCategory
      ensures transactionItems == old(transactionItems) && sortOrder == old(sortOrder)
    {
      isAssigningCategory := true;
      assignmentResult := None;
      reload := false;
      if repositoryResult == Some(true) {
        assignmentResult := Some(Success);
        reload := true;
      } else {
        assignmentResult := Some(Failure);
      }
      isAssigningCategory := false;
    }

    method ClearAssignmentResult()
      modifies this
      ensures assignmentResult == None
      ensures isAssigningCategory == old(isAssigningCategory) && transactionItems == old(transactionItems)
      ensures sortOrder == old(sortOrder)
    {
      assignmentResult := None;
    }
  }
}
