/**
 * `CategoryRepositoryImpl`: the category list kept in the preferences store
 * (add, replace, remove), the transactions of one category, and the
 * expense totals per category with the "Other"-or-last fallback.
 */
module CategoryRepository {
  import opened Common
  import opened Aggregation
  import opened DefaultCategories
  import TransactionRepository

  // ------------------------------------------------------------ list edits

  /** `indexOfFirst { it.id == id }`. */
  function IndexOfId(categories: seq<Category>, id: Option<string>): (r: Option<nat>)
    ensures r.Some? ==> r.value < |categories| && categories[r.value].id == id
                        && forall j :: 0 <= j < r.value ==> categories[j].id != id
    ensures r.None? ==> forall j :: 0 <= j < |categories| ==> categories[j].id != id
  {
    FirstIndex(categories, (c: Category) => c.id == id)
  }

  /** The list `updateCategory` saves: the first entry with the same id replaced. */
  function Replaced(categories: seq<Category>, category: Category): (r: seq<Category>)
    ensures |r| == |categories|
    ensures IndexOfId(categories, category.id).None? ==> r == categories
    ensures IndexOfId(categories, category.id).Some? ==>
              var i := IndexOfId(categories, category.id).value;
              r[i] == category && forall j :: 0 <= j < |r| && j != i ==> r[j] == categories[j]
  {
    match IndexOfId(categories, category.id)
    case None => categories
    case Some(i) => categories[i := category]
  }

  /** The list `deleteCategory` saves: the first entry with that id removed. */
  function Removed(categories: seq<Category>, categoryId: string): (r: seq<Category>)
    ensures IndexOfId(categories, Some(categoryId)).None? ==> r == categories
    ensures IndexOfId(categories, Some(categoryId)).Some? ==>
              var i := IndexOfId(categories, Some(categoryId)).value;
              |r| == |categories| - 1
              && (forall j :: 0 <= j < i ==> r[j] == categories[j])
              && (forall j :: i <= j < |r| ==> r[j] == categories[j + 1])
  {
    match IndexOfId(categories, Some(categoryId))
    case None => categories
    case Some(i) => categories[..i] + categories[i + 1..]
  }

  /** Replacing keeps the multiset of the other entries: one entry is swapped for the new one. */
  lemma ReplacedSwapsOne(categories: seq<Category>, category: Category)
    requires IndexOfId(categories, category.id).Some?
    ensures var i := IndexOfId(categories, category.id).value;
            multiset(Replaced(categories, category)) == multiset(categories) - multiset{categories[i]} + multiset{category}
  {
    var i := IndexOfId(categories, category.id).value;
    var r := Replaced(categories, category);
    assert categories == categories[..i] + [categories[i]] + categories[i + 1..];
    assert r == categories[..i] + [category] + categories[i + 1..];
  }

  /** Removing takes out exactly one entry, the first with that id. */
  lemma RemovedDropsOne(categories: seq<Category>, categoryId: string)
    requires IndexOfId(categories, Some(categoryId)).Some?
    ensures var i := IndexOfId(categories, Some(categoryId)).value;
            multiset(Removed(categories, categoryId)) == multiset(categories) - multiset{categories[i]}
  {
    var i := IndexOfId(categories, Some(categoryId)).value;
    assert categories == categories[..i] + [categories[i]] + categories[i + 1..];
  }

  /**
   * The saved category list. `stored` is the preferences entry: null until
   * something has been saved, and then the default categories are read.
   */
  class CategoryStore {
    var stored: Option<seq<Category>>

    constructor (stored: Option<seq<Category>>)
      ensures this.stored == stored
    {
      this.stored := stored;
    }

    /** `loadCategories`. */
    function Load(): (r: seq<Category>)
      reads this
      ensures stored.None? ==> r == Defaults()
      ensures stored.Some? ==> r == stored.value
    {
      OrElse(stored, Defaults())
    }

    method AddCategory(category: Category)
      modifies this
      ensures stored == Some(old(Load()) + [category])
    {
      var categories := Load();
      categories := categories + [category];
      stored := Some(categories);
    }

    /** An unknown id saves nothing: not even the defaults are written. */
    method UpdateCategory(category: Category)
      modifies this
      ensures IndexOfId(old(Load()), category.id).Some? ==> stored == Some(Replaced(old(Load()), category))
      ensures IndexOfId(old(Load()), category.id).None? ==> stored == old(stored)
    {
      var categories := Load();
      var index := IndexOfId(categories, category.id);
      if index.Some? {
        categories := categories[index.value := category];
        stored := Some(categories);
      }
    }

    /** Transactions of the removed category keep their category id. */
    method DeleteCategory(categoryId: string)
      modifies this
      ensures IndexOfId(old(Load()), Some(categoryId)).Some? ==> stored == Some(Removed(old(Load()), categoryId))
      ensures IndexOfId(old(Load()), Some(categoryId)).None? ==> stored == old(stored)
    {
      var categories := Load();
      var index := IndexOfId(categories, Some(categoryId));
      if index.Some? {
        categories := categories[..index.value] + categories[index.value + 1..];
        stored := Some(categories);
      }
    }
  }

  // ------------------------------------------------------------ transactions of a category

  /**
   * `getTransactionsByCategory`: the special "Other" branch, which also takes
   * transactions without a category, applies only when the requested id is
   * the default "Other" id and that id is not null.
   */
  function TransactionsByCategory(ts: seq<Transaction>, categoryId: string, otherCategoryId: Option<string>)
    : (r: seq<Transaction>)
    ensures IsSubsequence(r, ts)
    ensures otherCategoryId == Some(categoryId) ==>
              forall t :: t in r <==> t in ts && (t.categoryId == Some(categoryId) || IsNullOrEmpty(t.categoryId))
    ensures otherCategoryId != Some(categoryId) ==>
              forall t :: t in r <==> t in ts && t.categoryId == Some(categoryId)
    ensures otherCategoryId == Some(categoryId) ==>
              forall t :: multiset(r)[t] == if t.categoryId == Some(categoryId) || IsNullOrEmpty(t.categoryId) then multiset(ts)[t] else 0
    ensures otherCategoryId != Some(categoryId) ==>
              forall t :: multiset(r)[t] == if t.categoryId == Some(categoryId) then multiset(ts)[t] else 0
  {
    if otherCategoryId == Some(categoryId) then
      FilterIsSubsequence(ts, (t: Transaction) => t.categoryId == Some(categoryId) || IsNullOrEmpty(t.categoryId));
      FilterCounts(ts, (t: Transaction) => t.categoryId == Some(categoryId) || IsNullOrEmpty(t.categoryId));
      Filter(ts, (t: Transaction) => t.categoryId == Some(categoryId) || IsNullOrEmpty(t.categoryId))
    else
      FilterIsSubsequence(ts, (t: Transaction) => t.categoryId == Some(categoryId));
      FilterCounts(ts, (t: Transaction) => t.categoryId == Some(categoryId));
      Filter(ts, (t: Transaction) => t.categoryId == Some(categoryId))
  }

  /** With the real default "Other" id (null) the repository never takes the "Other" branch. */
  lemma NeverOtherBranch(ts: seq<Transaction>, categoryId: string)
    ensures var r := TransactionsByCategory(ts, categoryId, DefaultOtherId());
            forall t :: t in r <==> t in ts && t.categoryId == Some(categoryId)
  {
  }

  // ------------------------------------------------------------ spending by category

  /**
   * Where an expense is counted: its own category when some category has
   * its id, otherwise the category named "Other", otherwise the last one.
   * There is no target at all only when there are no categories.
   */
  function RepoTarget(categories: seq<Category>, t: Transaction): (r: Option<Category>)
    ensures r.Some? <==> categories != []
    ensures r.Some? ==> r.value in categories
  {
    if categories == [] then None
    else
      var other := OrElse(Find(categories, (c: Category) => c.name == "Other"), categories[|categories| - 1]);
      if t.categoryId.Some? then
        match Find(categories, (c: Category) => c.id == t.categoryId)
        case Some(c) => Some(c)
        case None => Some(other)
      else Some(other)
  }

  function RepoTargetOf(categories: seq<Category>): Transaction -> Option<Category> {
    t => RepoTarget(categories, t)
  }

  /**
   * `getSpendingByCategory(year, month)`: the expense totals of the
   * categories that have spending. With no categories at all the source's
   * `categories.last()` throws, modelled as `None`.
   */
  method SpendingByCategory(categories: seq<Category>, transactions: seq<Transaction>,
                            year: Option<int>, month: Option<int>)
    returns (r: Option<map<Category, real>>)
    ensures r.None? <==> categories == []
    ensures r.Some? ==>
              var expenses := TransactionRepository.FilterTransactions(transactions, year, month, Some(false));
              forall c :: c in r.value <==> c in categories && GroupTotal(expenses, RepoTargetOf(categories), Amount, c) > 0.0
    ensures r.Some? ==>
              var expenses := TransactionRepository.FilterTransactions(transactions, year, month, Some(false));
              forall c :: c in r.value ==> r.value[c] == GroupTotal(expenses, RepoTargetOf(categories), Amount, c)
  {
    var filteredTransactions := TransactionRepository.FilterTransactions(transactions, year, month, Some(false));
    if categories == [] {
      return None;
    }
    var result := Totals(categories, filteredTransactions, RepoTargetOf(categories), Amount);
    var nonZeroResults := map c | c in result && result[c] > 0.0 :: result[c];
    return Some(nonZeroResults);
  }

  /** An income transaction never reaches the totals: the filter drops it. */
  lemma IncomeIgnored(ts: seq<Transaction>, t: Transaction, year: Option<int>, month: Option<int>)
    requires t.isIncome
    ensures TransactionRepository.FilterTransactions(ts + [t], year, month, Some(false))
         == TransactionRepository.FilterTransactions(ts, year, month, Some(false))
  {
    var p := (x: Transaction) => TransactionRepository.MatchesFilter(x, year, month, Some(false));
    FilterAppend(ts, [t], p);
  }

  /**
   * Every expense is counted in exactly one category, so over the distinct
   * categories the totals before dropping zeros add up to all expenses.
   */
  lemma ExpensesPartitioned(categories: seq<Category>, expenses: seq<Transaction>)
    requires categories != [] && NoDuplicates(categories)
    ensures GroupSums(categories, expenses, RepoTargetOf(categories), Amount) == SumOf(expenses, Amount)
  {
    GroupsPartition(categories, expenses, RepoTargetOf(categories), Amount);
    FilterAllKept(expenses, Grouped(RepoTargetOf(categories)));
  }

  /** An expense whose id matches a category goes there and nowhere else. */
  lemma ExpenseGoesToOwnCategory(categories: seq<Category>, t: Transaction, c: Category)
    requires c in categories && c.id == t.categoryId && t.categoryId.Some?
    requires forall d :: d in categories && d.id == t.categoryId ==> d == c
    ensures RepoTarget(categories, t) == Some(c)
  {
  }
}
