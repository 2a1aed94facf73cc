/**
 * `backend-server/streamlit-spending-classifyer.py`: a dashboard over the
 * two CSV backups. Each transaction gets its category's name; the sidebar
 * narrows the rows by year, month, amount range, description, provider and
 * category; the rows left are totalled by category and by provider, a
 * click on a chart bar drills down, and four metrics sum the sidebar rows.
 * CSV loading, date parsing and all rendering are outside the model: the
 * parsed rows, the sidebar values and the chart clicks are inputs.
 */
module Streamlit {
  import opened Common
  import opened Sorting
  import opened Aggregation

  /** A row of `transactions_backup.csv` after `pd.to_datetime`; a missing cell is `None`. */
  datatype CsvRow = CsvRow(date: Date, amount: real, description: Option<string>, provider: Option<string>,
                           categoryId: Option<string>, income: Option<bool>)

  /** A row of `categories_backup.csv`. */
  datatype CategoryRow = CategoryRow(id: string, name: string)

  /** A transaction row with the `category` column added. */
  datatype Row = Row(date: Date, amount: real, description: Option<string>, provider: Option<string>,
                     categoryId: Option<string>, income: Option<bool>, category: Option<string>)

  // ------------------------------------------------------------ the category column

  /** `categories.set_index("id")["name"].to_dict()`: an id listed twice keeps its last name. */
  function CategoryMap(categories: seq<CategoryRow>): (m: map<string, string>)
    ensures forall id :: id in m <==> exists c :: c in categories && c.id == id
  {
    if categories == [] then map[]
    else
      var init := categories[..|categories|-1];
      var c := categories[|categories|-1];
      assert forall x :: x in categories <==> x in init || x == c by {
        assert categories == init + [c];
      }
      CategoryMap(init)[c.id := c.name]
  }

  /** The name an id maps to is the one on its last row. */
  lemma {:induction false} CategoryMapLastName(categories: seq<CategoryRow>, i: nat)
    requires i < |categories|
    requires forall j :: i < j < |categories| ==> categories[j].id != categories[i].id
    ensures CategoryMap(categories)[categories[i].id] == categories[i].name
  {
    if i < |categories| - 1 {
      var init := categories[..|categories|-1];
      CategoryMapLastName(init, i);
    }
  }

  /** `df["category"] = df["categoryId"].map(category_map)`: an id with no entry gives a missing name. */
  function Enriched(r: CsvRow, m: map<string, string>): (e: Row)
    ensures e.category.Some? <==> r.categoryId.Some? && r.categoryId.value in m
    ensures e.category.Some? ==> e.category.value == m[r.categoryId.value]
    ensures e.date == r.date && e.amount == r.amount && e.description == r.description
            && e.provider == r.provider && e.categoryId == r.categoryId && e.income == r.income
  {
    Row(r.date, r.amount, r.description, r.provider, r.categoryId, r.income,
        if r.categoryId.Some? && r.categoryId.value in m then Some(m[r.categoryId.value]) else None)
  }

  function EnrichAll(rows: seq<CsvRow>, categories: seq<CategoryRow>): (df: seq<Row>)
    ensures |df| == |rows|
    ensures forall i :: 0 <= i < |rows| ==> df[i] == Enriched(rows[i], CategoryMap(categories))
  {
    var m := CategoryMap(categories);
    seq(|rows|, i requires 0 <= i < |rows| => Enriched(rows[i], m))
  }

  // ------------------------------------------------------------ choices

  /** `Series.unique()`: each value once, in order of first appearance. */
  function Unique<T(==,!new)>(s: seq<T>): (r: seq<T>)
    ensures NoDuplicates(r)
    ensures forall x :: x in r <==> x in s
  {
    if s == [] then []
    else
      var init := s[..|s|-1];
      var x := s[|s|-1];
      assert s == init + [x];
      var u := Unique(init);
      if x in u then u else u + [x]
  }

  function Years(df: seq<Row>): (r: seq<int>)
    ensures forall y :: y in r <==> exists x :: x in df && x.date.year == y
  {
    if df == [] then [] else [df[0].date.year] + Years(df[1..])
  }

  function Months(df: seq<Row>): (r: seq<int>)
    ensures forall m :: m in r <==> exists x :: x in df && x.date.month == m
  {
    if df == [] then [] else [df[0].date.month] + Months(df[1..])
  }

  function Providers(df: seq<Row>): (r: seq<Option<string>>)
    ensures forall p :: p in r <==> exists x :: x in df && x.provider == p
  {
    if df == [] then [] else [df[0].provider] + Providers(df[1..])
  }

  function CategoryNames(df: seq<Row>): (r: seq<Option<string>>)
    ensures forall c :: c in r <==> exists x :: x in df && x.category == c
  {
    if df == [] then [] else [df[0].category] + CategoryNames(df[1..])
  }

  // ------------------------------------------------------------ the sidebar filters

  /** `df[df["year"] == selected_year]`. */
  function ForYear(df: seq<Row>, year: int): (r: seq<Row>)
    ensures IsSubsequence(r, df)
    ensures forall x :: x in r <==> x in df && x.date.year == year
    ensures forall x :: multiset(r)[x] == if x.date.year == year then multiset(df)[x] else 0
  {
    FilterIsSubsequence(df, (x: Row) => x.date.year == year);
    FilterCounts(df, (x: Row) => x.date.year == year);
    Filter(df, (x: Row) => x.date.year == year)
  }

  /** `df[df["month"] == selected_month]`. */
  function ForMonth(df: seq<Row>, month: int): (r: seq<Row>)
    ensures IsSubsequence(r, df)
    ensures forall x :: x in r <==> x in df && x.date.month == month
    ensures forall x :: multiset(r)[x] == if x.date.month == month then multiset(df)[x] else 0
  {
    FilterIsSubsequence(df, (x: Row) => x.date.month == month);
    FilterCounts(df, (x: Row) => x.date.month == month);
    Filter(df, (x: Row) => x.date.month == month)
  }

  /** `df[df["amount"].between(low, high)]`: both bounds inclusive. */
  function ForAmount(df: seq<Row>, low: real, high: real): (r: seq<Row>)
    ensures IsSubsequence(r, df)
    ensures forall x :: x in r <==> x in df && low <= x.amount <= high
    ensures forall x :: multiset(r)[x] == if low <= x.amount <= high then multiset(df)[x] else 0
  {
    FilterIsSubsequence(df, (x: Row) => low <= x.amount <= high);
    FilterCounts(df, (x: Row) => low <= x.amount <= high);
    Filter(df, (x: Row) => low <= x.amount <= high)
  }

  predicate DescriptionMatches(x: Row, text: string) {
    x.description.Some? && ContainsIgnoreCase(x.description.value, text)
  }

  /** `df[df["description"].str.contains(search_text, case=False)]`, as a literal substring test. */
  function ForSearch(df: seq<Row>, text: string): (r: seq<Row>)
    ensures IsSubsequence(r, df)
    ensures forall x :: x in r <==> x in df && DescriptionMatches(x, text)
    ensures forall x :: multiset(r)[x] == if DescriptionMatches(x, text) then multiset(df)[x] else 0
  {
    FilterIsSubsequence(df, (x: Row) => DescriptionMatches(x, text));
    FilterCounts(df, (x: Row) => DescriptionMatches(x, text));
    Filter(df, (x: Row) => DescriptionMatches(x, text))
  }

  /** `if provider_filter: df = df[df["provider"].isin(provider_filter)]`. */
  function ForProviders(df: seq<Row>, selection: seq<Option<string>>): (r: seq<Row>)
    ensures IsSubsequence(r, df)
    ensures selection == [] ==> r == df
    ensures selection != [] ==> forall x :: x in r <==> x in df && x.provider in selection
    ensures selection != [] ==> forall x :: multiset(r)[x] == if x.provider in selection then multiset(df)[x] else 0
  {
    if selection == [] then
      SubsequenceOfSelf(df);
      df
    else
      FilterIsSubsequence(df, (x: Row) => x.provider in selection);
      FilterCounts(df, (x: Row) => x.provider in selection);
      Filter(df, (x: Row) => x.provider in selection)
  }

  /**
   * `if category_filter: df = df[df["categoryId"].isin(category_filter)]`,
   * as written: the selection holds category names, the test reads ids.
   */
  function ForCategoryIdsAsWritten(df: seq<Row>, selection: seq<Option<string>>): (r: seq<Row>)
    ensures IsSubsequence(r, df)
    ensures selection == [] ==> r == df
    ensures selection != [] ==> forall x :: x in r <==> x in df && x.categoryId in selection
    ensures selection != [] ==> forall x :: multiset(r)[x] == if x.categoryId in selection then multiset(df)[x] else 0
  {
    if selection == [] then
      SubsequenceOfSelf(df);
      df
    else
      FilterIsSubsequence(df, (x: Row) => x.categoryId in selection);
      FilterCounts(df, (x: Row) => x.categoryId in selection);
      Filter(df, (x: Row) => x.categoryId in selection)
  }

  /** The category filter matched against the names the multiselect offers. */
  function ForCategories(df: seq<Row>, selection: seq<Option<string>>): (r: seq<Row>)
    ensures IsSubsequence(r, df)
    ensures selection == [] ==> r == df
    ensures selection != [] ==> forall x :: x in r <==> x in df && x.category in selection
    ensures selection != [] ==> forall x :: multiset(r)[x] == if x.category in selection then multiset(df)[x] else 0
  {
    if selection == [] then
      SubsequenceOfSelf(df);
      df
    else
      FilterIsSubsequence(df, (x: Row) => x.category in selection);
      FilterCounts(df, (x: Row) => x.category in selection);
      Filter(df, (x: Row) => x.category in selection)
  }

  /** The sidebar's values. */
  datatype Sidebar = Sidebar(year: int, month: int, low: real, high: real, searchText: string,
                             providers: seq<Option<string>>, categories: seq<Option<string>>)

  /** What every sidebar step asks of a row, the category step as written comparing ids. */
  predicate Kept(x: Row, s: Sidebar) {
    x.date.year == s.year && x.date.month == s.month && s.low <= x.amount <= s.high
    && DescriptionMatches(x, s.searchText)
    && (s.providers != [] ==> x.provider in s.providers)
    && (s.categories != [] ==> x.categoryId in s.categories)
  }

  /** The same steps with the corrected category step, which compares names. */
  predicate KeptIntended(x: Row, s: Sidebar) {
    x.date.year == s.year && x.date.month == s.month && s.low <= x.amount <= s.high
    && DescriptionMatches(x, s.searchText)
    && (s.providers != [] ==> x.provider in s.providers)
    && (s.categories != [] ==> x.category in s.categories)
  }

  /** What the sidebar steps before the category step ask of a row. */
  predicate KeptBefore(x: Row, s: Sidebar) {
    x.date.year == s.year && x.date.month == s.month && s.low <= x.amount <= s.high
    && DescriptionMatches(x, s.searchText)
    && (s.providers != [] ==> x.provider in s.providers)
  }

  /** The frame the category step receives: every sidebar step but the last. */
  function BeforeCategories(df: seq<Row>, s: Sidebar): (r: seq<Row>)
    ensures IsSubsequence(r, df)
    ensures forall x :: x in r <==> x in df && KeptBefore(x, s)
    ensures forall x :: multiset(r)[x] == if KeptBefore(x, s) then multiset(df)[x] else 0
  {
    var a := ForYear(df, s.year);
    var b := ForMonth(a, s.month);
    var c := ForAmount(b, s.low, s.high);
    var d := ForSearch(c, s.searchText);
    var e := ForProviders(d, s.providers);
    SubsequenceTransitive(b, a, df);
    SubsequenceTransitive(c, b, df);
    SubsequenceTransitive(d, c, df);
    SubsequenceTransitive(e, d, df);
    StepsBeforeCategories(df, s);
    e
  }

  /** Each step keeps every copy of the rows it passes, so the chain keeps every copy of the rows that pass them all. */
  lemma StepsBeforeCategories(df: seq<Row>, s: Sidebar)
    ensures var e := ForProviders(ForSearch(ForAmount(ForMonth(ForYear(df, s.year), s.month), s.low, s.high), s.searchText),
                                  s.providers);
            forall x :: multiset(e)[x] == (if KeptBefore(x, s) then multiset(df)[x] else 0) && (x in e <==> x in df && KeptBefore(x, s))
  {
    var a := ForYear(df, s.year);
    var b := ForMonth(a, s.month);
    var c := ForAmount(b, s.low, s.high);
    var d := ForSearch(c, s.searchText);
    var e := ForProviders(d, s.providers);
    forall x ensures multiset(e)[x] == (if KeptBefore(x, s) then multiset(df)[x] else 0) && (x in e <==> x in df && KeptBefore(x, s)) {
      var n := multiset(df)[x];
      var y := x.date.year == s.year;
      var ym := y && x.date.month == s.month;
      var yma := ym && s.low <= x.amount <= s.high;
      var ymas := yma && DescriptionMatches(x, s.searchText);
      assert multiset(a)[x] == if y then n else 0;
      assert multiset(b)[x] == if ym then n else 0;
      assert multiset(c)[x] == if yma then n else 0;
      assert multiset(d)[x] == if ymas then n else 0;
      assert multiset(e)[x] == if ymas && (s.providers != [] ==> x.provider in s.providers) then n else 0;
      assert x in e <==> x in multiset(e);
      assert x in df <==> x in multiset(df);
    }
  }

  /**
   * The frame after the whole sidebar chain, as the script writes it: in
   * their original order, exactly the rows that pass every step.
   */
  function SidebarFrame(df: seq<Row>, s: Sidebar): (r: seq<Row>)
    ensures IsSubsequence(r, df)
    ensures forall x :: x in r <==> x in df && Kept(x, s)
    ensures forall x :: multiset(r)[x] == if Kept(x, s) then multiset(df)[x] else 0
    ensures s.categories == [] ==> r == BeforeCategories(df, s)
  {
    var e := BeforeCategories(df, s);
    SubsequenceTransitive(ForCategoryIdsAsWritten(e, s.categories), e, df);
    ForCategoryIdsAsWritten(e, s.categories)
  }

  /** The sidebar chain with the corrected category step, which keeps the rows whose category name is chosen. */
  function SidebarFrameIntended(df: seq<Row>, s: Sidebar): (r: seq<Row>)
    ensures IsSubsequence(r, df)
    ensures forall x :: x in r <==> x in df && KeptIntended(x, s)
    ensures forall x :: multiset(r)[x] == if KeptIntended(x, s) then multiset(df)[x] else 0
    ensures s.categories == [] ==> r == BeforeCategories(df, s)
  {
    var e := BeforeCategories(df, s);
    SubsequenceTransitive(ForCategories(e, s.categories), e, df);
    ForCategories(e, s.categories)
  }

  /** With the first year and the first month offered preselected, as the select boxes default, some row is left. */
  lemma DefaultChoicesKeepRows(df: seq<Row>)
    requires df != []
    ensures var y := Unique(Years(df))[0];
            var byYear := ForYear(df, y);
            byYear != [] && ForMonth(byYear, Unique(Months(byYear))[0]) != []
  {
    assert df[0] in df;
    var y := Unique(Years(df))[0];
    assert y in Unique(Years(df));
    var x :| x in df && x.date.year == y;
    var byYear := ForYear(df, y);
    assert x in byYear;
    var m := Unique(Months(byYear))[0];
    assert m in Unique(Months(byYear));
    var z :| z in byYear && z.date.month == m;
    assert z in ForMonth(byYear, m);
  }

  // ------------------------------------------------------------ the amount slider

  function MinAmount(df: seq<Row>): (r: real)
    requires df != []
    ensures exists x :: x in df && x.amount == r
    ensures forall x :: x in df ==> r <= x.amount
  {
    if |df| == 1 then df[0].amount
    else
      var rest := MinAmount(df[1..]);
      assert forall x :: x in df[1..] ==> x in df;
      assert forall x :: x in df ==> x == df[0] || x in df[1..];
      if df[0].amount <= rest then df[0].amount else rest
  }

  function MaxAmount(df: seq<Row>): (r: real)
    requires df != []
    ensures exists x :: x in df && x.amount == r
    ensures forall x :: x in df ==> x.amount <= r
  {
    if |df| == 1 then df[0].amount
    else
      var rest := MaxAmount(df[1..]);
      assert forall x :: x in df[1..] ==> x in df;
      assert forall x :: x in df ==> x == df[0] || x in df[1..];
      if df[0].amount >= rest then df[0].amount else rest
  }

  /** The slider's default range is the frame's own range, and the inclusive filter then keeps every row. */
  lemma DefaultRangeKeepsAll(df: seq<Row>)
    requires df != []
    ensures ForAmount(df, MinAmount(df), MaxAmount(df)) == df
  {
    var low := MinAmount(df);
    var high := MaxAmount(df);
    FilterAllKept(df, (x: Row) => low <= x.amount <= high);
  }

  /** An empty search keeps every row that has a description. */
  lemma EmptySearchKeepsDescribed(df: seq<Row>)
    ensures forall x :: x in df && x.description.Some? ==> x in ForSearch(df, "")
    ensures (forall x :: x in df ==> x.description.Some?) ==> ForSearch(df, "") == df
  {
    forall x | x in df && x.description.Some? ensures DescriptionMatches(x, "") {
      ContainsEmpty(LowerStr(x.description.value));
      assert LowerStr("") == "";
    }
    if forall x :: x in df ==> x.description.Some? {
      FilterAllKept(df, (x: Row) => DescriptionMatches(x, ""));
    }
  }

  // ------------------------------------------------------------ the category filter finding

  /**
   * As written, picking a category name from the multiselect keeps a row
   * only if its id happens to equal that name: here the one row, whose
   * category is "Food", is dropped by choosing "Food".
   */
  lemma CategoryFilterDropsChosenName()
    ensures var x := Row(Date(2024, 5, 1, 0), 10.0, Some("Lunch"), Some("Cafe"), Some("c1"), Some(false), Some("Food"));
            var choices := Unique(CategoryNames([x]));
            Some("Food") in choices
            && ForCategoryIdsAsWritten([x], [Some("Food")]) == []
            && ForCategories([x], [Some("Food")]) == [x]
  {
    var x := Row(Date(2024, 5, 1, 0), 10.0, Some("Lunch"), Some("Cafe"), Some("c1"), Some(false), Some("Food"));
    assert x in [x];
    FilterAllKept([x], (y: Row) => y.category in [Some("Food")]);
  }

  /** Matching names, every chosen category that the multiselect offered keeps its rows. */
  lemma ChosenCategoriesKeepTheirRows(df: seq<Row>, selection: seq<Option<string>>)
    requires forall c :: c in selection ==> c in Unique(CategoryNames(df))
    ensures forall c :: c in selection ==> exists x :: x in ForCategories(df, selection) && x.category == c
    ensures forall x :: x in df && x.category in selection ==> x in ForCategories(df, selection)
  {
    forall c | c in selection ensures exists x :: x in ForCategories(df, selection) && x.category == c {
      var x :| x in df && x.category == c;
      assert x in ForCategories(df, selection);
    }
  }

  // ------------------------------------------------------------ group totals

  function CategoryOf(x: Row): Option<string> {
    x.category
  }

  function ProviderOf(x: Row): Option<string> {
    x.provider
  }

  function AmountOf(x: Row): real {
    x.amount
  }

  /** The present (non-missing) values of a key column, in row order. */
  function PresentKeys(df: seq<Row>, key: Row -> Option<string>): (r: seq<string>)
    ensures forall k :: k in r <==> exists x :: x in df && key(x) == Some(k)
  {
    if df == [] then []
    else
      assert forall x :: x in df <==> x == df[0] || x in df[1..];
      (if key(df[0]).Some? then [key(df[0]).value] else []) + PresentKeys(df[1..], key)
  }

  /** `groupby(key)`: the groups are the present values, sorted ascending; rows with a missing key form none. */
  function GroupKeys(df: seq<Row>, key: Row -> Option<string>): (r: seq<string>)
    ensures StrictlySorted(r) && NoDuplicates(r)
    ensures forall k :: k in r <==> exists x :: x in df && key(x) == Some(k)
  {
    var u := Unique(PresentKeys(df, key));
    SortDistinct(u);
    SortBy(u, StringLe)
  }

  /** `(key, total)` for each of the keys listed. */
  function TotalsOver(ks: seq<string>, df: seq<Row>, key: Row -> Option<string>): (r: seq<(string, real)>)
    ensures |r| == |ks|
    ensures forall i :: 0 <= i < |ks| ==> r[i].0 == ks[i]
  {
    if ks == [] then [] else [(ks[0], GroupTotal(df, key, AmountOf, ks[0]))] + TotalsOver(ks[1..], df, key)
  }

  /**
   * `df.groupby(key)["amount"].sum().reset_index()`: one total per group,
   * in ascending key order, and a group exactly for each key some row has.
   */
  function Totals(df: seq<Row>, key: Row -> Option<string>): (r: seq<(string, real)>)
    ensures forall i, j :: 0 <= i < j < |r| ==> r[i].0 != r[j].0
    ensures forall i, j :: 0 <= i < j < |r| ==> StringLe(r[i].0, r[j].0)
    ensures forall i :: 0 <= i < |r| ==> exists x :: x in df && key(x) == Some(r[i].0)
    ensures forall k :: (exists x :: x in df && key(x) == Some(k)) ==> exists i :: 0 <= i < |r| && r[i].0 == k
  {
    var ks := GroupKeys(df, key);
    assert forall i :: 0 <= i < |ks| ==> ks[i] in ks;
    TotalsOver(ks, df, key)
  }

  function SumTotals(ts: seq<(string, real)>): real {
    if ts == [] then 0.0 else ts[0].1 + SumTotals(ts[1..])
  }

  lemma {:induction false} SumTotalsOver(ks: seq<string>, df: seq<Row>, key: Row -> Option<string>)
    ensures SumTotals(TotalsOver(ks, df, key)) == GroupSums(ks, df, key, AmountOf)
  {
    if ks != [] {
      SumTotalsOver(ks[1..], df, key);
    }
  }

  /**
   * Each group's total is the sum over its rows, and the totals add up to
   * the sum over the rows that have a key: a row with a missing key is in
   * no group, every other row in exactly one.
   */
  lemma TotalsPartition(df: seq<Row>, key: Row -> Option<string>)
    ensures forall i :: 0 <= i < |Totals(df, key)| ==>
              Totals(df, key)[i].1 == SumOf(Filter(df, InGroup(key, Totals(df, key)[i].0)), AmountOf)
    ensures SumTotals(Totals(df, key)) == SumOf(Filter(df, Grouped(key)), AmountOf)
  {
    var ks := GroupKeys(df, key);
    forall i | 0 <= i < |ks| ensures Totals(df, key)[i].1 == SumOf(Filter(df, InGroup(key, ks[i])), AmountOf) {
      TotalAt(ks, df, key, i);
      GroupTotalIsFilteredSum(df, key, AmountOf, ks[i]);
    }
    SumTotalsOver(ks, df, key);
    GroupsPartition(ks, df, key, AmountOf);
  }

  lemma {:induction false} TotalAt(ks: seq<string>, df: seq<Row>, key: Row -> Option<string>, i: nat)
    requires i < |ks|
    ensures TotalsOver(ks, df, key)[i].1 == GroupTotal(df, key, AmountOf, ks[i])
  {
    if i > 0 {
      TotalAt(ks[1..], df, key, i - 1);
    }
  }

  // ------------------------------------------------------------ chart drill-down

  /** A click on a category bar keeps that category's rows; no click keeps the frame. */
  function ClickedCategory(df: seq<Row>, click: Option<string>): (r: seq<Row>)
    ensures IsSubsequence(r, df)
    ensures click.None? ==> r == df
    ensures click.Some? ==> forall x :: x in r <==> x in df && x.category == click
    ensures click.Some? ==> forall x :: multiset(r)[x] == if x.category == click then multiset(df)[x] else 0
  {
    if click.None? then
      SubsequenceOfSelf(df);
      df
    else
      FilterIsSubsequence(df, (x: Row) => x.category == click);
      FilterCounts(df, (x: Row) => x.category == click);
      Filter(df, (x: Row) => x.category == click)
  }

  /** A click on a provider bar keeps that provider's rows; no click keeps the frame. */
  function ClickedProvider(df: seq<Row>, click: Option<string>): (r: seq<Row>)
    ensures IsSubsequence(r, df)
    ensures click.None? ==> r == df
    ensures click.Some? ==> forall x :: x in r <==> x in df && x.provider == click
    ensures click.Some? ==> forall x :: multiset(r)[x] == if x.provider == click then multiset(df)[x] else 0
  {
    if click.None? then
      SubsequenceOfSelf(df);
      df
    else
      FilterIsSubsequence(df, (x: Row) => x.provider == click);
      FilterCounts(df, (x: Row) => x.provider == click);
      Filter(df, (x: Row) => x.provider == click)
  }

  // ------------------------------------------------------------ metrics

  const Investments: string := "Investments"

  predicate IsExpenseRow(x: Row) {
    x.income == Some(false) && x.category != Some(Investments)
  }

  predicate IsIncomeRow(x: Row) {
    x.income == Some(true)
  }

  predicate IsInvestmentRow(x: Row) {
    x.category == Some(Investments)
  }

  predicate IsSpentRow(x: Row) {
    x.income == Some(false)
  }

  predicate IsInvestedSpending(x: Row) {
    x.income == Some(false) && x.category == Some(Investments)
  }

  /** The four metrics; the percentages are `None` when the income is 0 (numpy then yields inf or NaN). */
  datatype Metrics = Metrics(expenses: real, income: real, savings: real, investments: real,
                             savingsRate: Option<real>, investmentRate: Option<real>)

  function MetricsOf(df: seq<Row>): (m: Metrics)
    ensures m.expenses == SumOf(Filter(df, IsExpenseRow), AmountOf)
    ensures m.income == SumOf(Filter(df, IsIncomeRow), AmountOf)
    ensures m.investments == SumOf(Filter(df, IsInvestmentRow), AmountOf)
    ensures m.savings == m.income - m.expenses
    ensures m.income == 0.0 <==> m.savingsRate.None? && m.investmentRate.None?
    ensures m.income != 0.0 ==> m.savingsRate == Some(m.savings / m.income * 100.0)
                                && m.investmentRate == Some(m.investments / m.income * 100.0)
  {
    var expenses := SumOf(Filter(df, IsExpenseRow), AmountOf);
    var income := SumOf(Filter(df, IsIncomeRow), AmountOf);
    var investments := SumOf(Filter(df, IsInvestmentRow), AmountOf);
    var savings := income - expenses;
    if income == 0.0 then Metrics(expenses, income, savings, investments, None, None)
    else Metrics(expenses, income, savings, investments, Some(savings / income * 100.0), Some(investments / income * 100.0))
  }

  /** The expense metric is all spending minus the spending filed under "Investments". */
  lemma {:induction false} ExpensesExcludeInvestments(df: seq<Row>)
    ensures SumOf(Filter(df, IsSpentRow), AmountOf)
            == MetricsOf(df).expenses + SumOf(Filter(df, IsInvestedSpending), AmountOf)
  {
    if df != [] {
      ExpensesExcludeInvestments(df[1..]);
      var x := df[0];
      var e := Filter(df[1..], IsExpenseRow);
      var v := Filter(df[1..], IsInvestedSpending);
      var s := Filter(df[1..], IsSpentRow);
      if IsExpenseRow(x) {
        assert Filter(df, IsExpenseRow) == [x] + e;
        assert Filter(df, IsSpentRow) == [x] + s;
        assert Filter(df, IsInvestedSpending) == v;
      } else if IsInvestedSpending(x) {
        assert Filter(df, IsInvestedSpending) == [x] + v;
        assert Filter(df, IsSpentRow) == [x] + s;
        assert Filter(df, IsExpenseRow) == e;
      } else {
        assert Filter(df, IsSpentRow) == s;
        assert Filter(df, IsExpenseRow) == e;
        assert Filter(df, IsInvestedSpending) == v;
      }
    }
  }

  /** The month picker offers exactly the months that occur in the chosen year. */
  lemma MonthChoicesOfYear(all: seq<Row>, year: int)
    ensures forall m :: m in Unique(Months(ForYear(all, year))) <==>
                        exists x :: x in all && x.date.year == year && x.date.month == m
  {
    var rows := ForYear(all, year);
    forall m ensures m in Unique(Months(rows)) <==> exists x :: x in all && x.date.year == year && x.date.month == m {
      if m in Unique(Months(rows)) {
        var x :| x in rows && x.date.month == m;
        assert x in all && x.date.year == year;
      }
      if exists x :: x in all && x.date.year == year && x.date.month == m {
        var x :| x in all && x.date.year == year && x.date.month == m;
        assert x in rows;
      }
    }
  }

  // ------------------------------------------------------------ the whole script

  /** What the page shows. */
  datatype View = View(
    yearChoices: seq<int>,
    monthChoices: seq<int>,
    amountBounds: Option<(real, real)>,
    providerChoices: seq<Option<string>>,
    categoryChoices: seq<Option<string>>,
    categoryTotals: seq<(string, real)>,
    table: seq<Row>,
    providerTotals: seq<(string, real)>,
    drilled: seq<Row>,
    metrics: Metrics)

  /** The widgets the sidebar offers, and the frame its filters leave. */
  datatype Choices = Choices(
    yearChoices: seq<int>,
    monthChoices: seq<int>,
    amountBounds: Option<(real, real)>,
    providerChoices: seq<Option<string>>,
    categoryChoices: seq<Option<string>>)

  /**
   * The sidebar half of the script: it rebinds `df` through the filter
   * chain, reading each widget's options off the frame as it stands then.
   * The amount bounds are `None` for an empty frame, where the slider has
   * no range.
   */
  method SidebarFilters(all: seq<Row>, sidebar: Sidebar) returns (choices: Choices, df: seq<Row>)
    ensures df == SidebarFrame(all, sidebar)
    ensures choices.yearChoices == Unique(Years(all))
    ensures choices.monthChoices == Unique(Months(ForYear(all, sidebar.year)))
    ensures var byMonth := ForMonth(ForYear(all, sidebar.year), sidebar.month);
            var searched := ForSearch(ForAmount(byMonth, sidebar.low, sidebar.high), sidebar.searchText);
            (byMonth == [] <==> choices.amountBounds.None?)
            && (byMonth != [] ==> choices.amountBounds == Some((MinAmount(byMonth), MaxAmount(byMonth))))
            && choices.providerChoices == Unique(Providers(searched))
            && choices.categoryChoices == Unique(CategoryNames(ForProviders(searched, sidebar.providers)))
  {
    df := all;
    var yearChoices := Unique(Years(df));
    df := ForYear(df, sidebar.year);
    var monthChoices := Unique(Months(df));
    df := ForMonth(df, sidebar.month);
    var amountBounds := if df == [] then None else Some((MinAmount(df), MaxAmount(df)));
    df := ForAmount(df, sidebar.low, sidebar.high);
    df := ForSearch(df, sidebar.searchText);
    var providerChoices := Unique(Providers(df));
    if sidebar.providers != [] {
      df := ForProviders(df, sidebar.providers);
    }
    var categoryChoices := Unique(CategoryNames(df));
    if sidebar.categories != [] {
      df := ForCategoryIdsAsWritten(df, sidebar.categories);
    }
    choices := Choices(yearChoices, monthChoices, amountBounds, providerChoices, categoryChoices);
  }

  /**
   * One run of the script, top to bottom: the sidebar, then the charts and
   * the table on the frame it leaves. The category filter is the one the
   * script writes, which compares the names it offers with ids.
   */
  method Dashboard(rows: seq<CsvRow>, categories: seq<CategoryRow>, sidebar: Sidebar,
                   categoryClick: Option<string>, providerClick: Option<string>) returns (view: View)
    ensures var all := EnrichAll(rows, categories);
            var df := SidebarFrame(all, sidebar);
            view.yearChoices == Unique(Years(all))
            && view.monthChoices == Unique(Months(ForYear(all, sidebar.year)))
            && view.categoryTotals == Totals(df, CategoryOf)
            && view.table == ClickedCategory(df, categoryClick)
            && view.providerTotals == Totals(view.table, ProviderOf)
            && view.drilled == ClickedProvider(view.table, providerClick)
            && view.metrics == MetricsOf(df)
    ensures var byMonth := ForMonth(ForYear(EnrichAll(rows, categories), sidebar.year), sidebar.month);
            var searched := ForSearch(ForAmount(byMonth, sidebar.low, sidebar.high), sidebar.searchText);
            (byMonth == [] <==> view.amountBounds.None?)
            && (byMonth != [] ==> view.amountBounds == Some((MinAmount(byMonth), MaxAmount(byMonth))))
            && view.providerChoices == Unique(Providers(searched))
            && view.categoryChoices == Unique(CategoryNames(ForProviders(searched, sidebar.providers)))
  {
    var choices, df := SidebarFilters(EnrichAll(rows, categories), sidebar);
    var categoryValues := Totals(df, CategoryOf);
    var dfFiltered := ClickedCategory(df, categoryClick);
    var table := dfFiltered;
    var providerValues := Totals(dfFiltered, ProviderOf);
    dfFiltered := ClickedProvider(dfFiltered, providerClick);
    view := View(choices.yearChoices, choices.monthChoices, choices.amountBounds, choices.providerChoices,
                 choices.categoryChoices, categoryValues, table, providerValues, dfFiltered, MetricsOf(df));
  }

  /**
   * The same run with the corrected category filter: the sidebar frame keeps
   * the rows whose category name is chosen, and the charts, the table and
   * the metrics are taken over that frame.
   */
  method DashboardIntended(rows: seq<CsvRow>, categories: seq<CategoryRow>, sidebar: Sidebar,
                           categoryClick: Option<string>, providerClick: Option<string>) returns (view: View)
    ensures var all := EnrichAll(rows, categories);
            var df := SidebarFrameIntended(all, sidebar);
            view.yearChoices == Unique(Years(all))
            && view.monthChoices == Unique(Months(ForYear(all, sidebar.year)))
            && view.categoryTotals == Totals(df, CategoryOf)
            && view.table == ClickedCategory(df, categoryClick)
            && view.providerTotals == Totals(view.table, ProviderOf)
            && view.drilled == ClickedProvider(view.table, providerClick)
            && view.metrics == MetricsOf(df)
    ensures var byMonth := ForMonth(ForYear(EnrichAll(rows, categories), sidebar.year), sidebar.month);
            var searched := ForSearch(ForAmount(byMonth, sidebar.low, sidebar.high), sidebar.searchText);
            (byMonth == [] <==> view.amountBounds.None?)
            && (byMonth != [] ==> view.amountBounds == Some((MinAmount(byMonth), MaxAmount(byMonth))))
            && view.providerChoices == Unique(Providers(searched))
            && view.categoryChoices == Unique(CategoryNames(ForProviders(searched, sidebar.providers)))
  {
    var all := EnrichAll(rows, categories);
    var choices, _ := SidebarFilters(all, sidebar);
    var df := SidebarFrameIntended(all, sidebar);
    var categoryValues := Totals(df, CategoryOf);
    var dfFiltered := ClickedCategory(df, categoryClick);
    var table := dfFiltered;
    var providerValues := Totals(dfFiltered, ProviderOf);
    dfFiltered := ClickedProvider(dfFiltered, providerClick);
    view := View(choices.yearChoices, choices.monthChoices, choices.amountBounds, choices.providerChoices,
                 choices.categoryChoices, categoryValues, table, providerValues, dfFiltered, MetricsOf(df));
  }
}
