/**
 * `SpendingInsightsTool`: answers to four kinds of spending question
 * (budget check, month-over-month comparison, category breakdown, 3-month
 * trend). The model keeps the numbers and every branch choice; the prose
 * of the answers is replaced by constructors that name the branch taken.
 *
 * `spendingOf(year, month)` stands for the expense totals per category
 * that the spending-by-category use case returns, as the entries of that
 * map in iteration order; `categories` is the repository's category list.
 */
module SpendingInsights {
  import opened Common
  import opened Sorting
  import TransactionRepository

  datatype Entry = Entry(category: Category, amount: real)

  function EntryAmount(e: Entry): real {
    e.amount
  }

  type SpendingSource = (int, int) -> seq<Entry>

  datatype YearMonth = YearMonth(year: int, month: int)

  datatype Query = Query(questionType: string, categoryName: Option<string>, budgetAmount: Option<real>)

  datatype Tier = Great | OnTrack | GettingClose | OverBudget

  datatype Band = SignificantIncrease | Increase | SignificantDecrease | Decrease | Similar

  datatype Trend = Increasing | Decreasing | Stable

  datatype CategorySpending = CategorySpending(categoryName: string, amount: real, percentageOfTotal: real)

  /** Which summary sentence was chosen, with the values it shows. */
  datatype Answer =
    | CategoryNotFound(name: string)
    | BudgetStatus(tier: Tier)
    | MonthlyTotal(total: real, percentage: real)
    | CategoryChange(band: Band)
    | TotalsCompared(current: real, last: real)
    | BiggestExpense(top: CategorySpending)
    | NoExpenses
    | TrendSummary(trend: Trend)
    | UnknownQuestionType

  /** Which line of the insights list was chosen, with the values it shows. */
  datatype Note =
    | CategoryDoesNotExist(name: string)
    | CurrentSpending(amount: real)
    | BudgetNote(amount: real)
    | RemainingBudget(amount: real)
    | OverBudgetBy(amount: real)
    | MonthlySpendingAnalysis
    | ThisMonth(amount: real)
    | LastMonth(amount: real)
    | Change(percentage: real)
    | CategoryNotFoundNote
    | MonthlySpendingComparison
    | TotalMonthlySpending(amount: real)
    | CategoriesWithExpenses(count: nat)
    | TopThree(top: seq<CategorySpending>)
    | ThreeMonthAnalysis
    | SpecifyValidQuestionType

  /** Which recommendation was chosen. */
  datatype Advice =
    | CheckSpelling
    | ViewAvailableCategories
    | ReduceCategoryExpenses
    | ReviewCategoryTransactions
    | MonitorCategorySpending
    | PostponeCategoryExpenses
    | GreatJobWithinBudget
    | RoomForMoreExpenses
    | ConsiderReducingExpenses
    | SpendingUnderControl
    | ReviewCategoryIncrease
    | GreatJobReducingCategory
    | PatternConsistent
    | ReviewThisMonth
    | SpendingConsistent
    | LargePortion(categoryName: string)
    | ManyCategories
    | ReviewRecentIncreases
    | GreatJobReducingExpenses
    | ConsistentMonthToMonth

  datatype Insight = Insight(
    questionType: string,
    answer: Answer,
    currentAmount: real,
    comparisonAmount: Option<real>,
    budgetAmount: Option<real>,
    percentageOfBudget: Option<real>,
    amountRemaining: Option<real>,
    percentageChange: Option<real>,
    trendDirection: Option<Trend>,
    categoryBreakdown: Option<seq<CategorySpending>>,
    insights: seq<Note>,
    recommendations: seq<Advice>)

  // ------------------------------------------------------------ spending lookups

  /** `spending.values.sum()`. */
  function Total(entries: seq<Entry>): real {
    SumOf(entries, EntryAmount)
  }

  /** `spending[category] ?: 0f`. */
  function AmountOf(entries: seq<Entry>, category: Category): (r: real)
    ensures (forall e :: e in entries ==> e.category != category) ==> r == 0.0
    ensures forall e :: e in entries && e.category == category && (forall f :: f in entries && f.category == category ==> f == e)
              ==> r == e.amount
  {
    if entries == [] then 0.0
    else if entries[0].category == category then entries[0].amount
    else AmountOf(entries[1..], category)
  }

  /** `categories.find { it.name.equals(categoryName, ignoreCase = true) }`. */
  function FindCategory(categories: seq<Category>, name: string): (r: Option<Category>)
    ensures r.Some? ==> r.value in categories && TransactionRepository.EqualsIgnoreCase(r.value.name, name)
    ensures r.None? ==> forall c :: c in categories ==> !TransactionRepository.EqualsIgnoreCase(c.name, name)
  {
    Find(categories, (c: Category) => TransactionRepository.EqualsIgnoreCase(c.name, name))
  }

  // ------------------------------------------------------------ budget

  /** The share of the budget spent, in percent; 0 without a positive budget. */
  function Percentage(spent: real, budget: real): (r: real)
    ensures budget > 0.0 ==> r * budget == spent * 100.0
    ensures budget <= 0.0 ==> r == 0.0
  {
    if budget > 0.0 then (spent / budget) * 100.0 else 0.0
  }

  /** With a positive budget, the percentage passes 100 exactly when the spending passes the budget. */
  lemma PercentageOverBudget(spent: real, budget: real)
    requires budget > 0.0
    ensures Percentage(spent, budget) > 100.0 <==> spent > budget
    ensures Percentage(spent, budget) <= 50.0 <==> spent * 2.0 <= budget
  {
    var p := Percentage(spent, budget);
    assert p * budget == spent * 100.0;
    assert (p - 100.0) * budget == (spent - budget) * 100.0;
    assert (p - 50.0) * budget == (spent * 2.0 - budget) * 50.0;
    SignOfProduct(p - 100.0, budget);
    SignOfProduct(p - 50.0, budget);
  }

  /** With a positive factor, a product has the sign of the other factor. */
  lemma SignOfProduct(a: real, b: real)
    requires b > 0.0
    ensures a > 0.0 <==> a * b > 0.0
    ensures a >= 0.0 <==> a * b >= 0.0
    ensures a <= 0.0 <==> a * b <= 0.0
  {
  }

  /** The summary tier: the first of <= 50, <= 80, <= 100 that holds, else over budget. */
  function BudgetTier(percentage: real): (r: Tier)
    ensures r == Great <==> percentage <= 50.0
    ensures r == OnTrack <==> 50.0 < percentage <= 80.0
    ensures r == GettingClose <==> 80.0 < percentage <= 100.0
    ensures r == OverBudget <==> percentage > 100.0
  {
    if percentage <= 50.0 then Great
    else if percentage <= 80.0 then OnTrack
    else if percentage <= 100.0 then GettingClose
    else OverBudget
  }

  /** The recommendations of a category budget check: more than 100, more than 80, otherwise. */
  function BudgetAdvice(percentage: real): (r: seq<Advice>)
    ensures percentage > 100.0 ==> r == [ReduceCategoryExpenses, ReviewCategoryTransactions]
    ensures 80.0 < percentage <= 100.0 ==> r == [MonitorCategorySpending, PostponeCategoryExpenses]
    ensures percentage <= 80.0 ==> r == [GreatJobWithinBudget, RoomForMoreExpenses]
  {
    if percentage > 100.0 then [ReduceCategoryExpenses, ReviewCategoryTransactions]
    else if percentage > 80.0 then [MonitorCategorySpending, PostponeCategoryExpenses]
    else [GreatJobWithinBudget, RoomForMoreExpenses]
  }

  /** The recommendation to cut back comes exactly with the over-budget summary, the one to monitor with "getting close". */
  lemma AdviceMatchesTier(percentage: real)
    ensures BudgetAdvice(percentage)[0] == ReduceCategoryExpenses <==> BudgetTier(percentage) == OverBudget
    ensures BudgetAdvice(percentage)[0] == MonitorCategorySpending <==> BudgetTier(percentage) == GettingClose
  {
  }

  /** `generateBudgetInsight`. */
  function BudgetInsight(categories: seq<Category>, spendingOf: SpendingSource, query: Query, year: int, month: int)
    : (r: Insight)
    ensures r.questionType == "budget_check"
    ensures query.categoryName.Some? && FindCategory(categories, query.categoryName.value).None? ==>
              r.answer == CategoryNotFound(query.categoryName.value) && r.currentAmount == 0.0
              && r.recommendations == [CheckSpelling, ViewAvailableCategories]
    ensures query.categoryName.Some? && FindCategory(categories, query.categoryName.value).Some? ==>
              var spent := AmountOf(spendingOf(year, month), FindCategory(categories, query.categoryName.value).value);
              var budget := OrElse(query.budgetAmount, 0.0);
              r.currentAmount == spent && r.budgetAmount == Some(budget)
              && r.percentageOfBudget == Some(Percentage(spent, budget))
              && r.amountRemaining == Some(budget - spent)
              && r.answer == BudgetStatus(BudgetTier(Percentage(spent, budget)))
    ensures query.categoryName.None? ==>
              var spent := Total(spendingOf(year, month));
              var budget := OrElse(query.budgetAmount, 0.0);
              r.currentAmount == spent && r.amountRemaining == Some(budget - spent)
              && r.percentageOfBudget == Some(Percentage(spent, budget))
              && (r.recommendations == [ConsiderReducingExpenses] <==> Percentage(spent, budget) > 90.0)
  {
    var budgetAmount := OrElse(query.budgetAmount, 0.0);
    if query.categoryName.Some? then
      var categoryName := query.categoryName.value;
      var found := FindCategory(categories, categoryName);
      if found.None? then
        Insight("budget_check", CategoryNotFound(categoryName), 0.0, None, None, None, None, None, None, None,
                [CategoryDoesNotExist(categoryName)], [CheckSpelling, ViewAvailableCategories])
      else
        var targetCategory := found.value;
        var categorySpending := AmountOf(spendingOf(year, month), targetCategory);
        var percentageOfBudget := Percentage(categorySpending, budgetAmount);
        var amountRemaining := budgetAmount - categorySpending;
        var remainingNote := if amountRemaining > 0.0 then RemainingBudget(amountRemaining) else OverBudgetBy(-amountRemaining);
        Insight("budget_check", BudgetStatus(BudgetTier(percentageOfBudget)), categorySpending, None,
                Some(budgetAmount), Some(percentageOfBudget), Some(amountRemaining), None, None, None,
                [CurrentSpending(categorySpending), BudgetNote(budgetAmount), remainingNote],
                BudgetAdvice(percentageOfBudget))
    else
      var totalSpending := Total(spendingOf(year, month));
      var percentageOfBudget := Percentage(totalSpending, budgetAmount);
      Insight("budget_check", MonthlyTotal(totalSpending, percentageOfBudget), totalSpending, None,
              Some(budgetAmount), Some(percentageOfBudget), Some(budgetAmount - totalSpending), None, None, None,
              [MonthlySpendingAnalysis, BudgetNote(budgetAmount)],
              if percentageOfBudget > 90.0 then [ConsiderReducingExpenses] else [SpendingUnderControl])
  }

  // ------------------------------------------------------------ month over month

  /** The month before: December of the year before for January. */
  function PreviousMonth(ym: YearMonth): (r: YearMonth)
    requires 1 <= ym.month <= 12
    ensures 1 <= r.month <= 12
    ensures r.year * 12 + r.month == ym.year * 12 + ym.month - 1
  {
    if ym.month == 1 then YearMonth(ym.year - 1, 12) else YearMonth(ym.year, ym.month - 1)
  }

  /** Two months with the same month count are the same month, so `PreviousMonth` is determined by its count. */
  lemma PreviousMonthUnique(ym: YearMonth, other: YearMonth)
    requires 1 <= ym.month <= 12 && 1 <= other.month <= 12
    requires other.year * 12 + other.month == ym.year * 12 + ym.month - 1
    ensures other == PreviousMonth(ym)
  {
    var p := PreviousMonth(ym);
    assert (other.year - p.year) * 12 == p.month - other.month;
  }

  /** The change of a category: relative to last month when there was spending, 100 for new spending, else 0. */
  function CategoryChangePercent(current: real, last: real): (r: real)
    ensures last > 0.0 ==> r * last == (current - last) * 100.0
    ensures last <= 0.0 && current > 0.0 ==> r == 100.0
    ensures last <= 0.0 && current <= 0.0 ==> r == 0.0
  {
    if last > 0.0 then ((current - last) / last) * 100.0
    else if current > 0.0 then 100.0
    else 0.0
  }

  /** The change of the totals: relative to last month, 0 when last month's total is not positive. */
  function TotalChangePercent(current: real, last: real): (r: real)
    ensures last > 0.0 ==> r * last == (current - last) * 100.0
    ensures last <= 0.0 ==> r == 0.0
  {
    if last > 0.0 then ((current - last) / last) * 100.0 else 0.0
  }

  /** With spending last month, the change is positive exactly when this month is higher. */
  lemma ChangeSign(current: real, last: real)
    requires last > 0.0
    ensures CategoryChangePercent(current, last) > 0.0 <==> current > last
    ensures TotalChangePercent(current, last) > 0.0 <==> current > last
  {
    var r := CategoryChangePercent(current, last);
    assert r * last == (current - last) * 100.0;
    if r > 0.0 {
      assert r * last > 0.0;
    }
    if current > last {
      assert r * last > 0.0;
    }
  }

  /** `increasing` above 5, `decreasing` below -5, else `stable`. */
  function ChangeTrend(change: real): (r: Trend)
    ensures r == Increasing <==> change > 5.0
    ensures r == Decreasing <==> change < -5.0
    ensures r == Stable <==> -5.0 <= change <= 5.0
  {
    if change > 5.0 then Increasing else if change < -5.0 then Decreasing else Stable
  }

  function ChangeBand(change: real): (r: Band)
    ensures r == SignificantIncrease <==> change > 20.0
    ensures r == Increase <==> 5.0 < change <= 20.0
    ensures r == SignificantDecrease <==> change < -20.0
    ensures r == Decrease <==> -20.0 <= change < -5.0
    ensures r == Similar <==> -5.0 <= change <= 5.0
  {
    if change > 20.0 then SignificantIncrease
    else if change > 5.0 then Increase
    else if change < -20.0 then SignificantDecrease
    else if change < -5.0 then Decrease
    else Similar
  }

  /** The summary band always agrees with the trend direction. */
  lemma BandAgreesWithTrend(change: real)
    ensures ChangeBand(change) in {SignificantIncrease, Increase} <==> ChangeTrend(change) == Increasing
    ensures ChangeBand(change) in {SignificantDecrease, Decrease} <==> ChangeTrend(change) == Decreasing
  {
  }

  /** `generateComparisonInsight`. */
  function ComparisonInsight(categories: seq<Category>, spendingOf: SpendingSource, query: Query, year: int, month: int)
    : (r: Insight)
    requires 1 <= month <= 12
    ensures r.questionType == "monthly_comparison"
    ensures query.categoryName.Some? && FindCategory(categories, query.categoryName.value).None? ==>
              r.answer == CategoryNotFound(query.categoryName.value) && r.currentAmount == 0.0
    ensures query.categoryName.Some? && FindCategory(categories, query.categoryName.value).Some? ==>
              var c := FindCategory(categories, query.categoryName.value).value;
              var last := PreviousMonth(YearMonth(year, month));
              var current := AmountOf(spendingOf(year, month), c);
              var before := AmountOf(spendingOf(last.year, last.month), c);
              r.currentAmount == current && r.comparisonAmount == Some(before)
              && r.percentageChange == Some(CategoryChangePercent(current, before))
              && r.trendDirection == Some(ChangeTrend(CategoryChangePercent(current, before)))
              && r.answer == CategoryChange(ChangeBand(CategoryChangePercent(current, before)))
    ensures query.categoryName.None? ==>
              var last := PreviousMonth(YearMonth(year, month));
              var current := Total(spendingOf(year, month));
              var before := Total(spendingOf(last.year, last.month));
              r.currentAmount == current && r.comparisonAmount == Some(before)
              && r.percentageChange == Some(TotalChangePercent(current, before))
              && r.trendDirection == Some(ChangeTrend(TotalChangePercent(current, before)))
              && (r.recommendations == [ReviewThisMonth] <==> TotalChangePercent(current, before) > 15.0)
  {
    var last := PreviousMonth(YearMonth(year, month));
    if query.categoryName.Some? then
      var categoryName := query.categoryName.value;
      var found := FindCategory(categories, categoryName);
      if found.None? then
        Insight("monthly_comparison", CategoryNotFound(categoryName), 0.0, None, None, None, None, None, None, None,
                [CategoryNotFoundNote], [])
      else
        var targetCategory := found.value;
        var currentAmount := AmountOf(spendingOf(year, month), targetCategory);
        var lastMonthAmount := AmountOf(spendingOf(last.year, last.month), targetCategory);
        var percentageChange := CategoryChangePercent(currentAmount, lastMonthAmount);
        Insight("monthly_comparison", CategoryChange(ChangeBand(percentageChange)), currentAmount, Some(lastMonthAmount),
                None, None, None, Some(percentageChange), Some(ChangeTrend(percentageChange)), None,
                [ThisMonth(currentAmount), LastMonth(lastMonthAmount), Change(percentageChange)],
                if percentageChange > 20.0 then [ReviewCategoryIncrease]
                else if percentageChange < -20.0 then [GreatJobReducingCategory]
                else [PatternConsistent])
    else
      var currentSpending := Total(spendingOf(year, month));
      var lastMonthSpending := Total(spendingOf(last.year, last.month));
      var percentageChange := TotalChangePercent(currentSpending, lastMonthSpending);
      Insight("monthly_comparison", TotalsCompared(currentSpending, lastMonthSpending), currentSpending,
              Some(lastMonthSpending), None, None, None, Some(percentageChange), Some(ChangeTrend(percentageChange)), None,
              [MonthlySpendingComparison],
              if percentageChange > 15.0 then [ReviewThisMonth] else [SpendingConsistent])
  }

  // ------------------------------------------------------------ category breakdown

  predicate Positive(e: Entry) {
    e.amount > 0.0
  }

  /** The order of `sortedByDescending { it.value }`: larger amounts first. */
  predicate AmountGe(a: Entry, b: Entry) {
    b.amount <= a.amount
  }

  lemma AmountGePreorder()
    ensures TotalPreorder(AmountGe)
  {
  }

  /** `filter { it.value > 0 }.sortedByDescending { it.value }`. */
  function Ranked(entries: seq<Entry>): (r: seq<Entry>)
    ensures multiset(r) == multiset(Filter(entries, Positive))
  {
    SortBy(Filter(entries, Positive), AmountGe)
  }

  /** One entry with its share of the total in percent (0 when the total is not positive). */
  function Share(e: Entry, total: real): (c: CategorySpending)
    ensures c.categoryName == e.category.name && c.amount == e.amount
    ensures total > 0.0 ==> c.percentageOfTotal * total == e.amount * 100.0
    ensures total <= 0.0 ==> c.percentageOfTotal == 0.0
  {
    var p := if total > 0.0 then (e.amount / total) * 100.0 else 0.0;
    assert total > 0.0 ==> p * total == (e.amount / total) * total * 100.0;
    CategorySpending(e.category.name, e.amount, p)
  }

  /** Each entry of the ranking with its share, in the ranking's order. */
  function Shares(ranked: seq<Entry>, total: real): (r: seq<CategorySpending>)
    ensures |r| == |ranked|
    ensures forall i :: 0 <= i < |r| ==> r[i] == Share(ranked[i], total)
  {
    if ranked == [] then []
    else [Share(ranked[0], total)] + Shares(ranked[1..], total)
  }

  function Breakdown(entries: seq<Entry>): seq<CategorySpending> {
    Shares(Ranked(entries), Total(entries))
  }

  /**
   * The breakdown lists exactly the categories with positive spending, from
   * the largest amount down, so its first entry is the biggest expense.
   */
  lemma BreakdownRanked(entries: seq<Entry>)
    ensures var b := Breakdown(entries);
            |b| == |Filter(entries, Positive)|
            && (forall i :: 0 <= i < |b| ==> b[i].amount > 0.0)
            && (forall i, j :: 0 <= i < j < |b| ==> b[j].amount <= b[i].amount)
            && (b != [] ==> forall e :: e in entries ==> e.amount <= b[0].amount)
  {
    var ranked := Ranked(entries);
    AmountGePreorder();
    SortBySorted(Filter(entries, Positive), AmountGe);
    RankedPositive(entries);
    RankedMax(entries);
  }

  lemma RankedPositive(entries: seq<Entry>)
    ensures |Ranked(entries)| == |Filter(entries, Positive)|
    ensures forall i :: 0 <= i < |Ranked(entries)| ==> Ranked(entries)[i].amount > 0.0
  {
    var ranked := Ranked(entries);
    var positive := Filter(entries, Positive);
    AmountGePreorder();
    SortBySorted(positive, AmountGe);
    assert |multiset(ranked)| == |multiset(positive)|;
    forall i | 0 <= i < |ranked| ensures ranked[i].amount > 0.0 {
      assert ranked[i] in multiset(ranked);
      assert ranked[i] in positive;
    }
  }

  lemma RankedMax(entries: seq<Entry>)
    ensures Ranked(entries) != [] ==> forall e :: e in entries ==> e.amount <= Ranked(entries)[0].amount
  {
    var ranked := Ranked(entries);
    var positive := Filter(entries, Positive);
    AmountGePreorder();
    SortBySorted(positive, AmountGe);
    RankedPositive(entries);
    if ranked != [] {
      forall e | e in entries ensures e.amount <= ranked[0].amount {
        if e.amount > 0.0 {
          assert e in multiset(ranked);
          var k :| 0 <= k < |ranked| && ranked[k] == e;
        } else {
          assert ranked[0].amount > 0.0;
        }
      }
    }
  }

  /** `generateCategoryAnalysisInsight`. */
  function AnalysisInsight(spendingOf: SpendingSource, year: int, month: int): (r: Insight)
    ensures r.questionType == "category_analysis"
    ensures r.currentAmount == Total(spendingOf(year, month))
    ensures r.categoryBreakdown == Some(Breakdown(spendingOf(year, month)))
    ensures Breakdown(spendingOf(year, month)) == [] <==> r.answer == NoExpenses
    ensures Breakdown(spendingOf(year, month)) != [] ==> r.answer == BiggestExpense(Breakdown(spendingOf(year, month))[0])
    ensures ManyCategories in r.recommendations <==> |Breakdown(spendingOf(year, month))| > 10
  {
    var spending := spendingOf(year, month);
    var totalSpending := Total(spending);
    var categoryBreakdown := Breakdown(spending);
    var answer := if categoryBreakdown != [] then BiggestExpense(categoryBreakdown[0]) else NoExpenses;
    var insights :=
      [TotalMonthlySpending(totalSpending), CategoriesWithExpenses(|categoryBreakdown|)]
      + (if |categoryBreakdown| >= 3 then [TopThree(Take(categoryBreakdown, 3))] else []);
    var recommendations :=
      (if categoryBreakdown != [] && categoryBreakdown[0].percentageOfTotal > 40.0
       then [LargePortion(categoryBreakdown[0].categoryName)] else [])
      + (if |categoryBreakdown| > 10 then [ManyCategories] else []);
    Insight("category_analysis", answer, totalSpending, None, None, None, None, None, None, Some(categoryBreakdown),
            insights, recommendations)
  }

  // ------------------------------------------------------------ 3-month trend

  /** The current month and the two before it, newest first. */
  function LastThreeMonths(ym: YearMonth): (r: seq<YearMonth>)
    requires 1 <= ym.month <= 12
    ensures |r| == 3 && r[0] == ym && r[1] == PreviousMonth(ym) && r[2] == PreviousMonth(PreviousMonth(ym))
  {
    [ym, PreviousMonth(ym), PreviousMonth(PreviousMonth(ym))]
  }

  /** The `repeat(3)` loop that steps back a month at a time, wrapping at the year boundary. */
  method TrendMonths(year: int, month: int) returns (months: seq<YearMonth>)
    requires 1 <= month <= 12
    ensures months == LastThreeMonths(YearMonth(year, month))
  {
    months := [];
    var currentYear := year;
    var currentMonth := month;
    var step := 0;
    while step < 3
      invariant 0 <= step <= 3 && 1 <= currentMonth <= 12
      invariant months == LastThreeMonths(YearMonth(year, month))[..step]
      invariant step < 3 ==> YearMonth(currentYear, currentMonth) == LastThreeMonths(YearMonth(year, month))[step]
    {
      months := months + [YearMonth(currentYear, currentMonth)];
      currentMonth := currentMonth - 1;
      if currentMonth == 0 {
        currentMonth := 12;
        currentYear := currentYear - 1;
      }
      step := step + 1;
    }
  }

  /** The monthly totals, oldest first (`map { … }.reversed()`). */
  function OldestFirstTotals(spendingOf: SpendingSource, months: seq<YearMonth>): (r: seq<real>)
    ensures |r| == |months|
    ensures forall i :: 0 <= i < |r| ==>
              r[i] == Total(spendingOf(months[|months| - 1 - i].year, months[|months| - 1 - i].month))
  {
    if months == [] then []
    else OldestFirstTotals(spendingOf, months[1..]) + [Total(spendingOf(months[0].year, months[0].month))]
  }

  /** The newest total against the one before: more than 10% up, more than 10% down, else stable. */
  function TrendOf(totals: seq<real>): (r: Trend)
    ensures |totals| < 2 ==> r == Stable
    ensures |totals| >= 2 ==>
              var newest := totals[|totals| - 1];
              var previous := totals[|totals| - 2];
              (r == Increasing <==> newest > previous * 1.1)
              && (r == Decreasing <==> newest <= previous * 1.1 && newest < previous * 0.9)
  {
    if |totals| < 2 then Stable
    else if totals[|totals| - 1] > totals[|totals| - 2] * 1.1 then Increasing
    else if totals[|totals| - 1] < totals[|totals| - 2] * 0.9 then Decreasing
    else Stable
  }

  /** With a non-negative previous total the two thresholds cannot both hold, so a drop is simply a drop below 90%. */
  lemma TrendThresholds(totals: seq<real>)
    requires |totals| >= 2 && totals[|totals| - 2] >= 0.0
    ensures TrendOf(totals) == Decreasing <==> totals[|totals| - 1] < totals[|totals| - 2] * 0.9
  {
  }

  function TrendInsight(totals: seq<real>): (r: Insight)
    ensures r.questionType == "spending_trend"
    ensures r.trendDirection == Some(TrendOf(totals)) && r.answer == TrendSummary(TrendOf(totals))
    ensures totals != [] ==> r.currentAmount == totals[|totals| - 1]
    ensures totals == [] ==> r.currentAmount == 0.0
  {
    var trend := TrendOf(totals);
    Insight("spending_trend", TrendSummary(trend), if totals != [] then totals[|totals| - 1] else 0.0,
            None, None, None, None, None, Some(trend), None, [ThreeMonthAnalysis],
            match trend
            case Increasing => [ReviewRecentIncreases]
            case Decreasing => [GreatJobReducingExpenses]
            case Stable => [ConsistentMonthToMonth])
  }

  /** The insight for a question type outside the four known ones. */
  function UnknownInsight(questionType: string): Insight {
    Insight(questionType, UnknownQuestionType, 0.0, None, None, None, None, None, None, None,
            [SpecifyValidQuestionType], [])
  }

  /**
   * `generateInsight`: the question type selects the rule, evaluated for the
   * year and month of `today`. The trend compares this month with the last.
   */
  method GenerateInsight(query: Query, categories: seq<Category>, spendingOf: SpendingSource, today: Date)
    returns (insight: Insight)
    requires 1 <= today.month <= 12
    ensures query.questionType == "budget_check" ==> insight == BudgetInsight(categories, spendingOf, query, today.year, today.month)
    ensures query.questionType == "monthly_comparison" ==>
              insight == ComparisonInsight(categories, spendingOf, query, today.year, today.month)
    ensures query.questionType == "category_analysis" ==> insight == AnalysisInsight(spendingOf, today.year, today.month)
    ensures query.questionType == "spending_trend" ==>
              insight == TrendInsight(OldestFirstTotals(spendingOf, LastThreeMonths(YearMonth(today.year, today.month))))
    ensures query.questionType !in {"budget_check", "monthly_comparison", "category_analysis", "spending_trend"} ==>
              insight == UnknownInsight(query.questionType)
  {
    var year := today.year;
    var month := today.month;
    if query.questionType == "budget_check" {
      insight := BudgetInsight(categories, spendingOf, query, year, month);
    } else if query.questionType == "monthly_comparison" {
      insight := ComparisonInsight(categories, spendingOf, query, year, month);
    } else if query.questionType == "category_analysis" {
      insight := AnalysisInsight(spendingOf, year, month);
    } else if query.questionType == "spending_trend" {
      var months := TrendMonths(year, month);
      var monthlyTotals := OldestFirstTotals(spendingOf, months);
      insight := TrendInsight(monthlyTotals);
    } else {
      insight := UnknownInsight(query.questionType);
    }
  }

  /** The trend looks at exactly three months, so it compares the current month's total with last month's. */
  lemma TrendComparesLastTwoMonths(spendingOf: SpendingSource, ym: YearMonth)
    requires 1 <= ym.month <= 12
    ensures var totals := OldestFirstTotals(spendingOf, LastThreeMonths(ym));
            var last := PreviousMonth(ym);
            |totals| == 3 && totals[2] == Total(spendingOf(ym.year, ym.month))
            && totals[1] == Total(spendingOf(last.year, last.month))
  {
  }

  // ------------------------------------------------------------ the recorded examples

  function Groceries(): Category {
    Category(Some("1"), None, "Groceries", ToInt32(0xFF4CAF50))
  }

  function Transportation(): Category {
    Category(Some("2"), None, "Transportation", ToInt32(0xFF2196F3))
  }

  function Restaurants(): Category {
    Category(Some("3"), None, "Restaurants", ToInt32(0xFFFF9800))
  }

  /** A budget of 600 with 450 spent is 75% used with 150 left; 750 spent is 125% with 150 over. */
  lemma BudgetExamples()
    ensures Percentage(450.0, 600.0) == 75.0 && BudgetTier(75.0) == OnTrack
    ensures Percentage(750.0, 600.0) == 125.0 && BudgetTier(125.0) == OverBudget
    ensures BudgetAdvice(125.0)[0] == ReduceCategoryExpenses
    ensures Percentage(200.0, 250.0) == 80.0 && BudgetTier(80.0) == OnTrack
  {
  }

  /** 300 against 250 is a 20% increase; the totals 1050 against 900 rose. */
  lemma ComparisonExamples()
    ensures CategoryChangePercent(300.0, 250.0) == 20.0 && ChangeTrend(20.0) == Increasing && ChangeBand(20.0) == Increase
    ensures TotalChangePercent(1050.0, 900.0) > 0.0
  {
    ChangeSign(1050.0, 900.0);
  }

  function Entertainment(): Category {
    Category(Some("4"), None, "Entertainment", ToInt32(0xFF9C27B0))
  }

  /** The recorded category analysis: a total of 1050 with Groceries first, then Restaurants. */
  lemma AnalysisExample()
    ensures var entries := [Entry(Groceries(), 450.0), Entry(Transportation(), 200.0),
                            Entry(Restaurants(), 300.0), Entry(Entertainment(), 100.0)];
            Total(entries) == 1050.0
            && |Breakdown(entries)| == 4
            && Breakdown(entries)[0].categoryName == "Groceries"
            && Breakdown(entries)[1].categoryName == "Restaurants"
  {
    var g, t, r, e := Entry(Groceries(), 450.0), Entry(Transportation(), 200.0),
                      Entry(Restaurants(), 300.0), Entry(Entertainment(), 100.0);
    RankedByAmount(g, t, r, e);
  }

  /** Four positive amounts in the test's order are ranked 450, 300, 200, 100. */
  lemma RankedByAmount(g: Entry, t: Entry, r: Entry, e: Entry)
    requires g.amount == 450.0 && t.amount == 200.0 && r.amount == 300.0 && e.amount == 100.0
    ensures Ranked([g, t, r, e]) == [g, r, t, e]
  {
    AllPositiveKept(g, t, r, e);
    SortFour(g, t, r, e);
  }

  lemma AllPositiveKept(g: Entry, t: Entry, r: Entry, e: Entry)
    requires Positive(g) && Positive(t) && Positive(r) && Positive(e)
    ensures Filter([g, t, r, e], Positive) == [g, t, r, e]
  {
    FilterAllKept([g, t, r, e], Positive);
  }

  lemma SortFour(g: Entry, t: Entry, r: Entry, e: Entry)
    requires e.amount <= t.amount < r.amount < g.amount
    ensures SortBy([g, t, r, e], AmountGe) == [g, r, t, e]
  {
    SortLastThree(t, r, e);
    SortByConsFront(g, [t, r, e], [r, t, e], AmountGe);
    ConsFour(g, t, r, e);
    ConsFour(g, r, t, e);
  }

  lemma SortLastTwo(r: Entry, e: Entry)
    requires e.amount <= r.amount
    ensures SortBy([r, e], AmountGe) == [r, e]
  {
    SortByOne(e, AmountGe);
    SortByConsFront(r, [e], [e], AmountGe);
    ConsTwo(r, e);
  }

  lemma SortLastThree(t: Entry, r: Entry, e: Entry)
    requires e.amount <= t.amount < r.amount
    ensures SortBy([t, r, e], AmountGe) == [r, t, e]
  {
    SortLastTwo(r, e);
    SortByConsSecond(t, [r, e], [r, e], AmountGe);
    ConsThree(t, r, e);
    InsertSecond(r, t, e);
  }

  lemma ConsTwo<T>(a: T, b: T)
    ensures [a] + [b] == [a, b]
  {
  }

  lemma ConsThree<T>(a: T, b: T, c: T)
    ensures [a] + [b, c] == [a, b, c]
  {
  }

  lemma InsertSecond<T>(a: T, b: T, c: T)
    ensures [a] + ([b] + [a, c][1..]) == [a, b, c]
  {
    assert [a, c][1..] == [c];
  }

  lemma ConsFour<T>(a: T, b: T, c: T, d: T)
    ensures [a] + [b, c, d] == [a, b, c, d]
  {
  }
}
