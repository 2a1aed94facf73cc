/**
 * The orders the screens sort transactions by: date and amount, ascending
 * or descending, always with Kotlin's stable sort.
 */
module TransactionOrder {
  import opened Common
  import opened Sorting

  predicate ByDate(a: Transaction, b: Transaction) {
    DateLe(a.date, b.date)
  }

  predicate ByAmount(a: Transaction, b: Transaction) {
    a.amount <= b.amount
  }

  lemma ByDatePreorder()
    ensures TotalPreorder(ByDate)
  {
    DatePreorder();
    KeyPreorder(ByDate, (t: Transaction) => t.date, DateLe);
  }

  lemma ByAmountPreorder()
    ensures TotalPreorder(ByAmount)
  {
  }

  /** `sortedByDescending { it.date }`. */
  function NewestFirst(ts: seq<Transaction>): (r: seq<Transaction>)
    ensures |r| == |ts| && multiset(r) == multiset(ts)
  {
    SortBy(ts, Flip(ByDate))
  }

  /** Newest first is ordered by date from the latest down, and keeps transactions of equal date in input order. */
  lemma NewestFirstOrdered(ts: seq<Transaction>)
    ensures forall i, j :: 0 <= i < j < |NewestFirst(ts)| ==> DateLe(NewestFirst(ts)[j].date, NewestFirst(ts)[i].date)
    ensures forall z :: Peers(NewestFirst(ts), Flip(ByDate), z) == Peers(ts, Flip(ByDate), z)
  {
    ByDatePreorder();
    FlipPreorder(ByDate);
    SortBySorted(ts, Flip(ByDate));
    forall z ensures Peers(NewestFirst(ts), Flip(ByDate), z) == Peers(ts, Flip(ByDate), z) {
      SortByStable(ts, Flip(ByDate), z);
    }
  }

  /**
   * The first `n` of the newest-first list are the latest transactions:
   * every transaction left out is no later than every one taken.
   */
  lemma LatestTaken(ts: seq<Transaction>, n: nat)
    ensures |Take(NewestFirst(ts), n)| == if n < |ts| then n else |ts|
    ensures forall i, j :: 0 <= i < |Take(NewestFirst(ts), n)| <= j < |NewestFirst(ts)| ==>
              DateLe(NewestFirst(ts)[j].date, Take(NewestFirst(ts), n)[i].date)
    ensures forall t :: t in Take(NewestFirst(ts), n) ==> t in ts
  {
    NewestFirstOrdered(ts);
    var s := NewestFirst(ts);
    forall t | t in Take(s, n) ensures t in ts {
      assert t in multiset(s);
    }
  }
}
