/**
 * `VisualizationViewModel`: the cumulative daily spending of a month, for
 * the current month, the previous one, and the average of the six full
 * months before the current one, where a shorter series carries its last
 * value forward.
 *
 * "Now" is the parameter `today`; days-in-month follows the Gregorian rule.
 */
module Visualization {
  import opened Common

  datatype YearMonth = YearMonth(year: int, month: int)

  /** The Gregorian calendar's month lengths. */
  function DaysInMonth(year: int, month: int): (r: nat)
    requires 1 <= month <= 12
    ensures 28 <= r <= 31
    ensures month == 2 ==> (r == 29 <==> (year % 4 == 0 && (year % 100 != 0 || year % 400 == 0)))
    ensures month in {4, 6, 9, 11} ==> r == 30
    ensures month in {1, 3, 5, 7, 8, 10, 12} ==> r == 31
  {
    if month == 2 then
      if year % 4 == 0 && (year % 100 != 0 || year % 400 == 0) then 29 else 28
    else if month == 4 || month == 6 || month == 9 || month == 11 then 30
    else 31
  }

  /** A date the calendar can produce. */
  predicate ValidDate(d: Date) {
    1 <= d.month <= 12 && 1 <= d.day <= DaysInMonth(d.year, d.month)
  }

  /** `Calendar.add(MONTH, -offset)` on the year and month of `today`. */
  function MonthsBack(today: Date, offset: nat): (r: YearMonth)
    requires 1 <= today.month <= 12
    ensures 1 <= r.month <= 12
    ensures r.year * 12 + r.month == today.year * 12 + today.month - offset
  {
    var index := today.year * 12 + (today.month - 1) - offset;
    YearMonth(index / 12, index % 12 + 1)
  }

  /** One month back from January is December of the year before; otherwise the year stays. */
  lemma PreviousMonth(today: Date)
    requires 1 <= today.month <= 12
    ensures today.month == 1 ==> MonthsBack(today, 1) == YearMonth(today.year - 1, 12)
    ensures today.month > 1 ==> MonthsBack(today, 1) == YearMonth(today.year, today.month - 1)
  {
    var r := MonthsBack(today, 1);
    MonthIndexUnique(r.year, r.month, if today.month == 1 then today.year - 1 else today.year,
                     if today.month == 1 then 12 else today.month - 1);
  }

  lemma MonthIndexUnique(y0: int, m0: int, y1: int, m1: int)
    requires 1 <= m0 <= 12 && 1 <= m1 <= 12
    requires y0 * 12 + m0 == y1 * 12 + m1
    ensures y0 == y1 && m0 == m1
  {
    assert (y0 - y1) * 12 == m1 - m0;
  }

  predicate IsSpending(t: Transaction) {
    !t.isIncome
  }

  predicate InMonth(ym: YearMonth, t: Transaction) {
    t.date.month == ym.month && t.date.year == ym.year
  }

  function InMonthOf(ym: YearMonth): Transaction -> bool {
    t => InMonth(ym, t)
  }

  /** How many days the series covers: up to today in the current month, the whole month otherwise. */
  function DaysToProcess(ym: YearMonth, today: Date): (r: nat)
    requires 1 <= ym.month <= 12 && ValidDate(today)
    ensures ym.year == today.year && ym.month == today.month ==> r == today.day
    ensures !(ym.year == today.year && ym.month == today.month) ==> r == DaysInMonth(ym.year, ym.month)
  {
    if ym.year == today.year && ym.month == today.month then today.day else DaysInMonth(ym.year, ym.month)
  }

  /** The amounts of the transactions dated on the day of 0-based index `d`. */
  function DayTotal(ts: seq<Transaction>, d: int): real {
    if ts == [] then 0.0 else (if ts[0].date.day - 1 == d then ts[0].amount else 0.0) + DayTotal(ts[1..], d)
  }

  /** The amounts of the transactions dated on or before day `day`. */
  function SpentBy(ts: seq<Transaction>, day: int): real {
    if ts == [] then 0.0 else (if ts[0].date.day <= day then ts[0].amount else 0.0) + SpentBy(ts[1..], day)
  }

  /**
   * The cumulative series `calculateCumulativeSpendingForMonth` returns:
   * empty when the month has no transactions, otherwise one value per day
   * to process, the value of day i + 1 being what was spent up to that day.
   */
  function Series(ts: seq<Transaction>, ym: YearMonth, today: Date): (r: seq<real>)
    requires 1 <= ym.month <= 12 && ValidDate(today)
  {
    var inMonth := Filter(ts, InMonthOf(ym));
    if inMonth == [] then []
    else seq(DaysToProcess(ym, today), i => SpentBy(inMonth, i + 1))
  }

  lemma {:induction false} DayTotalSnoc(ts: seq<Transaction>, t: Transaction, d: int)
    ensures DayTotal(ts + [t], d) == DayTotal(ts, d) + (if t.date.day - 1 == d then t.amount else 0.0)
  {
    if ts != [] {
      assert (ts + [t])[1..] == ts[1..] + [t];
      DayTotalSnoc(ts[1..], t, d);
    }
  }

  lemma {:induction false} SpentByStep(ts: seq<Transaction>, day: int)
    ensures SpentBy(ts, day + 1) == SpentBy(ts, day) + DayTotal(ts, day)
  {
    if ts != [] {
      SpentByStep(ts[1..], day);
    }
  }

  lemma {:induction false} SpentByNone(ts: seq<Transaction>)
    requires forall t :: t in ts ==> 1 <= t.date.day
    ensures SpentBy(ts, 0) == 0.0
  {
    if ts != [] {
      assert ts[0] in ts;
      SpentByNone(ts[1..]);
    }
  }

  /** With no negative amounts, more days never spend less. */
  lemma {:induction false} SpentByMonotone(ts: seq<Transaction>, a: int, b: int)
    requires a <= b
    requires forall t :: t in ts ==> t.amount >= 0.0
    ensures SpentBy(ts, a) <= SpentBy(ts, b)
  {
    if ts != [] {
      assert ts[0] in ts;
      SpentByMonotone(ts[1..], a, b);
    }
  }

  /** The series is empty exactly when the month has no transactions, and otherwise covers the days to process. */
  lemma SeriesShape(ts: seq<Transaction>, ym: YearMonth, today: Date)
    requires 1 <= ym.month <= 12 && ValidDate(today)
    ensures Series(ts, ym, today) == [] <==> (forall t :: t in ts ==> !InMonth(ym, t)) || DaysToProcess(ym, today) == 0
    ensures (exists t :: t in ts && InMonth(ym, t)) ==> |Series(ts, ym, today)| == DaysToProcess(ym, today)
  {
    var inMonth := Filter(ts, InMonthOf(ym));
    if inMonth != [] {
      assert inMonth[0] in inMonth;
    } else {
      forall t | t in ts ensures !InMonth(ym, t) {
        assert t !in inMonth;
      }
    }
  }

  /** The cumulative series of non-negative amounts never goes down. */
  lemma SeriesNonDecreasing(ts: seq<Transaction>, ym: YearMonth, today: Date)
    requires 1 <= ym.month <= 12 && ValidDate(today)
    requires forall t :: t in ts ==> t.amount >= 0.0
    ensures forall i, j :: 0 <= i <= j < |Series(ts, ym, today)| ==> Series(ts, ym, today)[i] <= Series(ts, ym, today)[j]
  {
    var inMonth := Filter(ts, InMonthOf(ym));
    forall i, j | 0 <= i <= j < |Series(ts, ym, today)|
      ensures Series(ts, ym, today)[i] <= Series(ts, ym, today)[j]
    {
      SpentByMonotone(inMonth, i + 1, j + 1);
    }
  }

  /** Income never reaches the series: dropping it before the month filter changes nothing that `processTransactions` feeds in. */
  lemma SpendingOnly(ts: seq<Transaction>, t: Transaction, ym: YearMonth, today: Date)
    requires 1 <= ym.month <= 12 && ValidDate(today)
    requires t.isIncome
    ensures Series(Filter(ts + [t], IsSpending), ym, today) == Series(Filter(ts, IsSpending), ym, today)
  {
    FilterAppend(ts, [t], IsSpending);
    assert Filter([t], IsSpending) == [];
    assert Filter(ts, IsSpending) + [] == Filter(ts, IsSpending);
  }

  /** The `dailySpending` array: what was spent on each of the first `days` days; later days are ignored. */
  method DailySpending(transactionsInMonth: seq<Transaction>, days: nat) returns (dailySpending: array<real>)
    requires forall t :: t in transactionsInMonth ==> 1 <= t.date.day
    ensures fresh(dailySpending) && dailySpending.Length == days
    ensures forall d :: 0 <= d < days ==> dailySpending[d] == DayTotal(transactionsInMonth, d)
  {
    dailySpending := new real[days](_ => 0.0);
    var k := 0;
    while k < |transactionsInMonth|
      invariant 0 <= k <= |transactionsInMonth|
      invariant forall d :: 0 <= d < days ==> dailySpending[d] == DayTotal(transactionsInMonth[..k], d)
    {
      var t := transactionsInMonth[k];
      assert t in transactionsInMonth;
      assert transactionsInMonth[..k + 1] == transactionsInMonth[..k] + [t];
      forall d | 0 <= d < days
        ensures DayTotal(transactionsInMonth[..k + 1], d)
             == DayTotal(transactionsInMonth[..k], d) + (if t.date.day - 1 == d then t.amount else 0.0)
      {
        DayTotalSnoc(transactionsInMonth[..k], t, d);
      }
      var dayOfMonth := t.date.day - 1;
      if dayOfMonth < days {
        dailySpending[dayOfMonth] := dailySpending[dayOfMonth] + t.amount;
      }
      k := k + 1;
    }
    assert transactionsInMonth[..k] == transactionsInMonth;
  }

  /** `calculateCumulativeSpendingForMonth`: the daily array, then its running sum. */
  method CumulativeSpendingForMonth(transactions: seq<Transaction>, ym: YearMonth, today: Date)
    returns (cumulativeSpending: seq<real>)
    requires 1 <= ym.month <= 12 && ValidDate(today)
    requires forall t :: t in transactions ==> ValidDate(t.date)
    ensures cumulativeSpending == Series(transactions, ym, today)
  {
    var transactionsInMonth := Filter(transactions, InMonthOf(ym));
    if transactionsInMonth == [] {
      return [];
    }
    forall t | t in transactionsInMonth ensures 1 <= t.date.day {
      assert t in transactions;
    }
    var daysToProcess := DaysToProcess(ym, today);
    var dailySpending := DailySpending(transactionsInMonth, daysToProcess);
    SpentByNone(transactionsInMonth);
    cumulativeSpending := [];
    var sum := 0.0;
    var j := 0;
    while j < daysToProcess
      invariant 0 <= j <= daysToProcess
      invariant sum == SpentBy(transactionsInMonth, j)
      invariant forall d :: 0 <= d < daysToProcess ==> dailySpending[d] == DayTotal(transactionsInMonth, d)
      invariant |cumulativeSpending| == j
      invariant forall i :: 0 <= i < j ==> cumulativeSpending[i] == SpentBy(transactionsInMonth, i + 1)
    {
      SpentByStep(transactionsInMonth, j);
      sum := sum + dailySpending[j];
      cumulativeSpending := cumulativeSpending + [sum];
      j := j + 1;
    }
  }

  // ------------------------------------------------------------ six-month average

  /** `series.getOrNull(i) ?: series.lastOrNull() ?: 0f`. */
  function ValueAt(s: seq<real>, i: nat): (r: real)
    ensures i < |s| ==> r == s[i]
    ensures |s| <= i && s != [] ==> r == s[|s| - 1]
    ensures s == [] ==> r == 0.0
  {
    if i < |s| then s[i] else if s != [] then s[|s| - 1] else 0.0
  }

  /** The longest series' length (`maxOf { it.size }`). */
  function MaxLen(ss: seq<seq<real>>): (r: nat)
    ensures forall j :: 0 <= j < |ss| ==> |ss[j]| <= r
    ensures ss != [] ==> exists j :: 0 <= j < |ss| && |ss[j]| == r
    ensures ss == [] ==> r == 0
  {
    if ss == [] then 0
    else
      var rest := MaxLen(ss[1..]);
      assert forall j :: 1 <= j < |ss| ==> ss[j] == ss[1..][j - 1];
      if |ss[0]| >= rest then |ss[0]| else rest
  }

  function SumAt(ss: seq<seq<real>>, i: nat): real {
    if ss == [] then 0.0 else ValueAt(ss[0], i) + SumAt(ss[1..], i)
  }

  /** Point i of the average: the mean of every series' value at i. */
  function Averaged(ss: seq<seq<real>>): (r: seq<real>)
    requires ss != []
    ensures |r| == MaxLen(ss)
  {
    seq(MaxLen(ss), i requires 0 <= i => SumAt(ss, i) / (|ss| as real))
  }

  lemma {:induction false} SumAtSame(ss: seq<seq<real>>, s: seq<real>, i: nat)
    requires forall j :: 0 <= j < |ss| ==> ss[j] == s
    ensures SumAt(ss, i) == (|ss| as real) * ValueAt(s, i)
  {
    if ss != [] {
      SumAtSame(ss[1..], s, i);
    }
  }

  /** Every value of the series lies in `lo..hi`. */
  predicate SeriesWithin(s: seq<real>, lo: real, hi: real) {
    forall d :: 0 <= d < |s| ==> lo <= s[d] <= hi
  }

  /** Every value of every series lies in `lo..hi`. */
  predicate Within(ss: seq<seq<real>>, lo: real, hi: real) {
    forall j :: 0 <= j < |ss| ==> SeriesWithin(ss[j], lo, hi)
  }

  lemma ValueAtWithin(s: seq<real>, i: nat, lo: real, hi: real)
    requires SeriesWithin(s, lo, hi) && lo <= 0.0 <= hi
    ensures lo <= ValueAt(s, i) <= hi
  {
    if i >= |s| && s != [] {
      assert lo <= s[|s| - 1] <= hi;
    }
  }

  /** `n` copies of `x` added up. */
  function Repeated(n: nat, x: real): real {
    if n == 0 then 0.0 else x + Repeated(n - 1, x)
  }

  lemma {:induction false} RepeatedIsProduct(n: nat, x: real)
    ensures Repeated(n, x) == (n as real) * x
  {
    if n > 0 {
      RepeatedIsProduct(n - 1, x);
      assert (n as real) * x == ((n - 1) as real) * x + x;
    }
  }

  lemma {:induction false} SumAtBounded(ss: seq<seq<real>>, i: nat, lo: real, hi: real)
    requires Within(ss, lo, hi)
    requires lo <= 0.0 <= hi
    ensures Repeated(|ss|, lo) <= SumAt(ss, i) <= Repeated(|ss|, hi)
  {
    if ss != [] {
      var rest := ss[1..];
      assert Within(rest, lo, hi) by {
        forall j | 0 <= j < |rest| ensures SeriesWithin(rest[j], lo, hi) {
          assert rest[j] == ss[j + 1];
        }
      }
      SumAtBounded(rest, i, lo, hi);
      assert SeriesWithin(ss[0], lo, hi);
      ValueAtWithin(ss[0], i, lo, hi);
    }
  }

  lemma MeanBounded(sum: real, n: real, lo: real, hi: real)
    requires n > 0.0 && n * lo <= sum <= n * hi
    ensures lo <= sum / n <= hi
  {
    var m := sum / n;
    assert m * n == sum;
  }

  /** Averaging copies of one series gives that series back. */
  lemma AveragedOfCopies(ss: seq<seq<real>>, s: seq<real>)
    requires ss != [] && forall j :: 0 <= j < |ss| ==> ss[j] == s
    ensures Averaged(ss) == s
  {
    assert ss[0] == s;
    var r := Averaged(ss);
    forall i | 0 <= i < |r| ensures r[i] == s[i] {
      SumAtSame(ss, s, i);
    }
  }

  /** Every point of the average lies within the bounds of all the values averaged (0 stands in for an empty series). */
  lemma AveragedBounded(ss: seq<seq<real>>, lo: real, hi: real)
    requires ss != [] && Within(ss, lo, hi)
    requires lo <= 0.0 <= hi
    ensures forall i :: 0 <= i < |Averaged(ss)| ==> lo <= Averaged(ss)[i] <= hi
  {
    forall i | 0 <= i < |Averaged(ss)| ensures lo <= Averaged(ss)[i] <= hi {
      SumAtBounded(ss, i, lo, hi);
      RepeatedIsProduct(|ss|, lo);
      RepeatedIsProduct(|ss|, hi);
      MeanBounded(SumAt(ss, i), |ss| as real, lo, hi);
    }
  }

  /** The series of the months `offset` = 1..n before today, in that order. */
  function LastMonths(ts: seq<Transaction>, today: Date, n: nat): (r: seq<seq<real>>)
    requires ValidDate(today)
    ensures |r| == n
  {
    if n == 0 then [] else LastMonths(ts, today, n - 1) + [Series(ts, MonthsBack(today, n), today)]
  }

  /** `(1..6).map { offset -> calculateCumulativeSpendingForMonth(...) }`. */
  method LastSixMonths(spendingTransactions: seq<Transaction>, today: Date) returns (series: seq<seq<real>>)
    requires ValidDate(today)
    requires forall t :: t in spendingTransactions ==> ValidDate(t.date)
    ensures series == LastMonths(spendingTransactions, today, 6)
  {
    series := [];
    var offset := 1;
    while offset <= 6
      invariant 1 <= offset <= 7
      invariant series == LastMonths(spendingTransactions, today, offset - 1)
    {
      var monthSeries := CumulativeSpendingForMonth(spendingTransactions, MonthsBack(today, offset), today);
      series := series + [monthSeries];
      offset := offset + 1;
    }
  }

  class VisualizationViewModel {
    var cumulativeSpendingCurrentMonth: seq<real>
    var cumulativeSpendingPreviousMonth: seq<real>
    var cumulativeSpendingAvg6Months: seq<real>
    var isLoading: bool
    var error: Option<string>

    constructor ()
      ensures cumulativeSpendingCurrentMonth == [] && cumulativeSpendingPreviousMonth == []
      ensures cumulativeSpendingAvg6Months == [] && !isLoading && error == None
    {
      cumulativeSpendingCurrentMonth := [];
      cumulativeSpendingPreviousMonth := [];
      cumulativeSpendingAvg6Months := [];
      isLoading := false;
      error := None;
    }

    /** `processTransactions`: only expenses feed the three series. */
    method ProcessTransactions(transactions: seq<Transaction>, today: Date)
      requires ValidDate(today)
      requires forall t :: t in transactions ==> ValidDate(t.date)
      modifies this
      ensures var spending := Filter(transactions, IsSpending);
              cumulativeSpendingCurrentMonth == Series(spending, YearMonth(today.year, today.month), today)
              && cumulativeSpendingPreviousMonth == Series(spending, MonthsBack(today, 1), today)
              && cumulativeSpendingAvg6Months == Averaged(LastMonths(spending, today, 6))
      ensures isLoading == old(isLoading) && error == old(error)
    {
      var spendingTransactions := Filter(transactions, IsSpending);
      assert forall t :: t in spendingTransactions ==> ValidDate(t.date);
      var current := CumulativeSpendingForMonth(spendingTransactions, YearMonth(today.year, today.month), today);
      var previous := CumulativeSpendingForMonth(spendingTransactions, MonthsBack(today, 1), today);
      var last6MonthsCumulativeSpending := LastSixMonths(spendingTransactions, today);
      cumulativeSpendingCurrentMonth := current;
      cumulativeSpendingPreviousMonth := previous;
      cumulativeSpendingAvg6Months := Averaged(last6MonthsCumulativeSpending);
    }

    /**
     * `loadSpendingData` with the fetch's outcome given: the transactions
     * fetched, or the failure's message. Loading ends either way.
     */
    method LoadSpendingData(fetched: Option<seq<Transaction>>, failureMessage: Option<string>, today: Date)
      requires ValidDate(today)
      requires fetched.Some? ==> forall t :: t in fetched.value ==> ValidDate(t.date)
      modifies this
      ensures !isLoading
      ensures fetched.None? ==>
                error == Some("Error fetching spending data: " + OrElse(failureMessage, "null"))
                && cumulativeSpendingCurrentMonth == old(cumulativeSpendingCurrentMonth)
                && cumulativeSpendingPreviousMonth == old(cumulativeSpendingPreviousMonth)
                && cumulativeSpendingAvg6Months == old(cumulativeSpendingAvg6Months)
      ensures fetched.Some? ==>
                error == None
                && var spending := Filter(fetched.value, IsSpending);
                   cumulativeSpendingCurrentMonth == Series(spending, YearMonth(today.year, today.month), today)
                   && cumulativeSpendingPreviousMonth == Series(spending, MonthsBack(today, 1), today)
                   && cumulativeSpendingAvg6Months == Averaged(LastMonths(spending, today, 6))
    {
      isLoading := true;
      error := None;
      if fetched.None? {
        error := Some("Error fetching spending data: " + OrElse(failureMessage, "null"));
        isLoading := false;
      } else {
        ProcessTransactions(fetched.value, today);
        isLoading := false;
      }
    }
  }
}
