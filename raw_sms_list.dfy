/**
 * `RawSmsListViewModel`: the list of inbox messages as read, narrowed by a
 * search term and sorted by date, amount or provider. The messages come
 * from `SmsDataSource.readSmsMessages` and are an input here.
 */
module RawSmsList {
  import opened Common
  import opened Sorting

  datatype SmsSortField = DateField | AmountField | ProviderField
  datatype SortOrder = Ascending | Descending

  // ------------------------------------------------------------ the search

  /** The lowercased provider, address or amount text contains the lowercased term. */
  predicate MatchesTerm(m: SmsMessage, lowerTerm: string) {
    (m.provider.Some? && Contains(LowerStr(m.provider.value), lowerTerm))
    || Contains(LowerStr(m.address), lowerTerm)
    || (m.amount.Some? && Contains(LowerStr(m.amount.value), lowerTerm))
  }

  /** The filtering half of `applyFiltersAndSorting`. */
  function Searched(messages: seq<SmsMessage>, searchTerm: string): (r: seq<SmsMessage>)
    ensures IsSubsequence(r, messages)
    ensures IsBlank(LowerStr(searchTerm)) ==> r == messages
    ensures !IsBlank(LowerStr(searchTerm)) ==> forall m :: m in r <==> m in messages && MatchesTerm(m, LowerStr(searchTerm))
    ensures !IsBlank(LowerStr(searchTerm)) ==>
              forall m :: multiset(r)[m] == if MatchesTerm(m, LowerStr(searchTerm)) then multiset(messages)[m] else 0
  {
    var term := LowerStr(searchTerm);
    if IsBlank(term) then
      SubsequenceOfSelf(messages);
      messages
    else
      FilterIsSubsequence(messages, m => MatchesTerm(m, term));
      FilterCounts(messages, m => MatchesTerm(m, term));
      Filter(messages, m => MatchesTerm(m, term))
  }

  // ------------------------------------------------------------ the sort

  predicate ByDateTime(a: SmsMessage, b: SmsMessage) {
    NullsFirst(DateLe)(a.dateTime, b.dateTime)
  }

  predicate ByNumericAmount(a: SmsMessage, b: SmsMessage) {
    NullsFirst(RealLe)(a.numericAmount, b.numericAmount)
  }

  /** `(provider ?: address).lowercase()`. */
  function ProviderKey(m: SmsMessage): string {
    LowerStr(OrElse(m.provider, m.address))
  }

  predicate ByProvider(a: SmsMessage, b: SmsMessage) {
    StringLe(ProviderKey(a), ProviderKey(b))
  }

  function Comparator(field: SmsSortField, order: SortOrder): (SmsMessage, SmsMessage) -> bool {
    var le := match field
      case DateField => ByDateTime
      case AmountField => ByNumericAmount
      case ProviderField => ByProvider;
    if order == Ascending then le else Flip(le)
  }

  lemma ComparatorPreorder(field: SmsSortField, order: SortOrder)
    ensures TotalPreorder(Comparator(field, order))
  {
    DatePreorder();
    NullsFirstPreorder(DateLe);
    KeyPreorder(ByDateTime, (m: SmsMessage) => m.dateTime, NullsFirst(DateLe));
    RealPreorder();
    NullsFirstPreorder(RealLe);
    KeyPreorder(ByNumericAmount, (m: SmsMessage) => m.numericAmount, NullsFirst(RealLe));
    StringPreorder();
    KeyPreorder(ByProvider, ProviderKey, StringLe);
    FlipPreorder(ByDateTime);
    FlipPreorder(ByNumericAmount);
    FlipPreorder(ByProvider);
  }

  /** What the screen shows: the searched messages, stably sorted. */
  function Displayed(messages: seq<SmsMessage>, searchTerm: string, field: SmsSortField, order: SortOrder)
    : (r: seq<SmsMessage>)
    ensures multiset(r) == multiset(Searched(messages, searchTerm))
  {
    SortBy(Searched(messages, searchTerm), Comparator(field, order))
  }

  /** The displayed list is a stable sort of the searched list. */
  lemma DisplayedIsStableSort(messages: seq<SmsMessage>, searchTerm: string, field: SmsSortField, order: SortOrder)
    ensures var s := Searched(messages, searchTerm);
            var r := Displayed(messages, searchTerm, field, order);
            Sorted(r, Comparator(field, order))
            && forall z :: Peers(r, Comparator(field, order), z) == Peers(s, Comparator(field, order), z)
  {
    var s := Searched(messages, searchTerm);
    var le := Comparator(field, order);
    ComparatorPreorder(field, order);
    SortBySorted(s, le);
    forall z ensures Peers(SortBy(s, le), le, z) == Peers(s, le, z) {
      SortByStable(s, le, z);
    }
  }

  /** Ascending by date puts the messages without a date first. */
  lemma UndatedFirstWhenAscending(messages: seq<SmsMessage>, searchTerm: string)
    ensures var r := Displayed(messages, searchTerm, DateField, Ascending);
            forall i, j :: 0 <= i < j < |r| && r[j].dateTime.None? ==> r[i].dateTime.None?
  {
    var r := Displayed(messages, searchTerm, DateField, Ascending);
    DisplayedIsStableSort(messages, searchTerm, DateField, Ascending);
    forall i, j | 0 <= i < j < |r| && r[j].dateTime.None? ensures r[i].dateTime.None? {
      assert ByDateTime(r[i], r[j]);
    }
  }

  /** Descending by amount puts the messages without an amount last. */
  lemma UnparsedLastWhenDescending(messages: seq<SmsMessage>, searchTerm: string)
    ensures var r := Displayed(messages, searchTerm, AmountField, Descending);
            forall i, j :: 0 <= i < j < |r| && r[i].numericAmount.None? ==> r[j].numericAmount.None?
  {
    var r := Displayed(messages, searchTerm, AmountField, Descending);
    DisplayedIsStableSort(messages, searchTerm, AmountField, Descending);
    forall i, j | 0 <= i < j < |r| && r[i].numericAmount.None? ensures r[j].numericAmount.None? {
      assert Flip(ByNumericAmount)(r[i], r[j]);
    }
  }

  // ------------------------------------------------------------ the sort choice

  /**
   * `onSortChanged`: the current field toggles the order; a new field is
   * taken with ascending order.
   */
  function NextSort(field: SmsSortField, order: SortOrder, newField: SmsSortField): (r: (SmsSortField, SortOrder))
    ensures r.0 == newField
    ensures field == newField ==> r.1 != order
    ensures field != newField ==> r.1 == Ascending
  {
    if field == newField then (field, if order == Ascending then Descending else Ascending)
    else (newField, Ascending)
  }

  /** Choosing the same field twice restores the order. */
  lemma SortChangedTwice(field: SmsSortField, order: SortOrder, newField: SmsSortField)
    ensures var once := NextSort(field, order, newField);
            var twice := NextSort(once.0, once.1, newField);
            field == newField ==> twice == (field, order)
  {
  }

  class RawSmsListViewModel {
    var rawSmsMessages: seq<SmsMessage>
    var displayedSmsMessages: seq<SmsMessage>
    var isLoading: bool
    var searchTerm: string
    var sortField: SmsSortField
    var sortOrder: SortOrder

    /** The state before `init` loads: no term, newest first. */
    constructor ()
      ensures rawSmsMessages == [] && displayedSmsMessages == [] && !isLoading && searchTerm == ""
      ensures sortField == DateField && sortOrder == Descending
    {
      rawSmsMessages := [];
      displayedSmsMessages := [];
      isLoading := false;
      searchTerm := "";
      sortField := DateField;
      sortOrder := Descending;
    }

    method ApplyFiltersAndSorting()
      modifies this
      ensures displayedSmsMessages == Displayed(rawSmsMessages, searchTerm, sortField, sortOrder)
      ensures rawSmsMessages == old(rawSmsMessages) && searchTerm == old(searchTerm)
      ensures sortField == old(sortField) && sortOrder == old(sortOrder) && isLoading == old(isLoading)
    {
      var filteredList := Searched(rawSmsMessages, searchTerm);
      displayedSmsMessages := SortBy(filteredList, Comparator(sortField, sortOrder));
    }

    /** `loadRawSmsMessages`, with the messages the data source returned (all time, at most 1000). */
    method LoadRawSmsMessages(messages: seq<SmsMessage>)
      modifies this
      ensures rawSmsMessages == messages && !isLoading
      ensures displayedSmsMessages == Displayed(messages, searchTerm, sortField, sortOrder)
      ensures searchTerm == old(searchTerm) && sortField == old(sortField) && sortOrder == old(sortOrder)
    {
      isLoading := true;
      rawSmsMessages := messages;
      ApplyFiltersAndSorting();
      isLoading := false;
    }

    method OnSearchTermChanged(newTerm: string)
      modifies this
      ensures searchTerm == newTerm
      ensures displayedSmsMessages == Displayed(rawSmsMessages, newTerm, sortField, sortOrder)
      ensures rawSmsMessages == old(rawSmsMessages) && sortField == old(sortField) && sortOrder == old(sortOrder)
      ensures isLoading == old(isLoading)
    {
      searchTerm := newTerm;
      ApplyFiltersAndSorting();
    }

    method OnSortChanged(newField: SmsSortField)
      modifies this
      ensures (sortField, sortOrder) == NextSort(old(sortField), old(sortOrder), newField)
      ensures displayedSmsMessages == Displayed(rawSmsMessages, searchTerm, sortField, sortOrder)
      ensures rawSmsMessages == old(rawSmsMessages) && searchTerm == old(searchTerm)
      ensures isLoading == old(isLoading)
    {
      if sortField == newField {
        sortOrder := if sortOrder == Ascending then Descending else Ascending;
      } else {
        sortField := newField;
        sortOrder := Ascending;
      }
      ApplyFiltersAndSorting();
    }
  }
}
