/**
 * `GetSpendingByCategoryUseCase`: the total of the filtered transactions per
 * category, every category present (with 0 when nothing was spent), and the
 * transactions without a known category sent to the fallback category.
 */
module SpendingByCategory {
  import opened Common
  import opened Aggregation
  import opened DefaultCategories
  import TransactionRepository

  /**
   * The fallback category: the first category whose id equals the default
   * "Other" id. That id is null, so this is the first category without an id.
   */
  function Fallback(categories: seq<Category>): (r: Option<Category>)
    ensures r.Some? ==> r.value in categories && r.value.id == None
    ensures r.None? ==> forall c :: c in categories ==> c.id != None
  {
    Find(categories, WithId(DefaultOtherId()))
  }

  /** Kotlin `{ it.id == id }`. */
  function WithId(id: Option<string>): Category -> bool {
    (c: Category) => c.id == id
  }

  /** The category a transaction's amount is added to, if any. */
  function Target(categories: seq<Category>, t: Transaction): (r: Option<Category>)
    ensures r.Some? ==> r.value in categories
  {
    var found :=
      if t.categoryId.Some? && !IsBlank(t.categoryId.value)
      then Find(categories, WithId(t.categoryId))
      else None;
    if found.Some? then found else Fallback(categories)
  }

  /**
   * A non-blank id that some category carries sends the amount to the first
   * such category; a null, blank or unknown id sends it to the fallback.
   */
  lemma TargetRule(categories: seq<Category>, t: Transaction)
    ensures t.categoryId.Some? && !IsBlank(t.categoryId.value) && (exists c :: c in categories && c.id == t.categoryId) ==>
              Target(categories, t).Some? && Target(categories, t).value.id == t.categoryId
              && Target(categories, t) == Find(categories, WithId(t.categoryId))
    ensures (t.categoryId.None? || IsBlank(t.categoryId.value) || forall c :: c in categories ==> c.id != t.categoryId) ==>
              Target(categories, t) == Fallback(categories)
  {
    if t.categoryId.Some? && !IsBlank(t.categoryId.value) && (exists c :: c in categories && c.id == t.categoryId) {
      TargetKnownId(categories, t);
    }
    if t.categoryId.None? || IsBlank(t.categoryId.value) || forall c :: c in categories ==> c.id != t.categoryId {
      TargetUnknownId(categories, t);
    }
  }

  lemma TargetKnownId(categories: seq<Category>, t: Transaction)
    requires t.categoryId.Some? && !IsBlank(t.categoryId.value)
    requires exists c :: c in categories && c.id == t.categoryId
    ensures Target(categories, t) == Find(categories, WithId(t.categoryId))
    ensures Target(categories, t).Some? && Target(categories, t).value.id == t.categoryId
  {
    var p := WithId(t.categoryId);
    var c :| c in categories && c.id == t.categoryId;
    var j :| 0 <= j < |categories| && categories[j] == c;
    assert p(categories[j]);
    var found := Find(categories, p);
    assert found.Some?;
    var k :| 0 <= k < |categories| && categories[k] == found.value && p(categories[k]);
  }

  lemma TargetUnknownId(categories: seq<Category>, t: Transaction)
    requires t.categoryId.None? || IsBlank(t.categoryId.value) || forall c :: c in categories ==> c.id != t.categoryId
    ensures Target(categories, t) == Fallback(categories)
  {
    if t.categoryId.Some? && !IsBlank(t.categoryId.value) {
      var p := WithId(t.categoryId);
      forall j | 0 <= j < |categories| ensures !p(categories[j]) {
        assert categories[j] in categories;
      }
    }
  }

  function TargetOf(categories: seq<Category>): Transaction -> Option<Category> {
    t => Target(categories, t)
  }

  /** `invoke(year, month, isIncome)` over the repository's categories and transactions. */
  method SpendingByCategory(allCategories: seq<Category>, transactions: seq<Transaction>,
                            year: Option<int>, month: Option<int>, isIncome: Option<bool>)
    returns (result: map<Category, real>)
    ensures allCategories == [] ==> result == map[]
    ensures forall c :: c in result <==> c in allCategories
    ensures var filtered := TransactionRepository.FilterTransactions(transactions, year, month, isIncome);
            forall c :: c in result ==> result[c] == GroupTotal(filtered, TargetOf(allCategories), Amount, c)
  {
    if allCategories == [] {
      return map[];
    }
    var filtered := TransactionRepository.FilterTransactions(transactions, year, month, isIncome);
    result := Totals(allCategories, filtered, TargetOf(allCategories), Amount);
  }

  /**
   * With a fallback category every filtered transaction is attributed to
   * exactly one category, so the totals over the distinct categories add up
   * to the sum of all filtered amounts.
   */
  lemma TotalsPartitionSpending(categories: seq<Category>, ts: seq<Transaction>)
    requires NoDuplicates(categories) && Fallback(categories).Some?
    ensures GroupSums(categories, ts, TargetOf(categories), Amount) == SumOf(ts, Amount)
  {
    var g := TargetOf(categories);
    GroupsPartition(categories, ts, g, Amount);
    FilterAllKept(ts, Grouped(g));
  }
}
