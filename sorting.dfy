/**
 * Kotlin's `sortedBy`, `sortedByDescending` and `sortedWith` are stable
 * sorts: the result is ordered by the comparator, is a permutation of the
 * input, and keeps elements that compare equal in their input order. This
 * module models them as one insertion sort over a total preorder and proves
 * those three facts, and that they determine the result uniquely.
 */
module Sorting {
  import opened Common

  /** `le` is total and transitive: a comparator's "compares <= 0". */
  ghost predicate TotalPreorder<T(!new)>(le: (T, T) -> bool) {
    (forall a, b :: le(a, b) || le(b, a))
    && (forall a, b, c :: le(a, b) && le(b, c) ==> le(a, c))
  }

  ghost predicate Sorted<T>(s: seq<T>, le: (T, T) -> bool) {
    forall i, j :: 0 <= i < j < |s| ==> le(s[i], s[j])
  }

  /** The reversed comparator, as `sortedByDescending` uses it. */
  function Flip<T>(le: (T, T) -> bool): (T, T) -> bool {
    (a, b) => le(b, a)
  }

  lemma FlipPreorder<T(!new)>(le: (T, T) -> bool)
    requires TotalPreorder(le)
    ensures TotalPreorder(Flip(le))
  {
  }

  /** `x` goes before the first element it is not greater than. */
  function Insert<T>(x: T, r: seq<T>, le: (T, T) -> bool): (o: seq<T>)
    ensures |o| == |r| + 1
    ensures multiset(o) == multiset(r) + multiset{x}
  {
    if r == [] then [x]
    else if le(x, r[0]) then [x] + r
    else
      assert r == [r[0]] + r[1..];
      [r[0]] + Insert(x, r[1..], le)
  }

  /** The stable sort of `s` by `le`. */
  function SortBy<T>(s: seq<T>, le: (T, T) -> bool): (o: seq<T>)
    ensures |o| == |s|
    ensures multiset(o) == multiset(s)
  {
    if s == [] then []
    else
      assert s == [s[0]] + s[1..];
      Insert(s[0], SortBy(s[1..], le), le)
  }

  /** Sorting a list with a head inserts the head into the sorted tail. */
  lemma SortByCons<T>(x: T, s: seq<T>, le: (T, T) -> bool)
    ensures SortBy([x] + s, le) == Insert(x, SortBy(s, le), le)
  {
    assert ([x] + s)[1..] == s;
  }

  /** Inserting passes over a head that `x` is not at most, and stops before one it is. */
  lemma InsertStep<T>(x: T, y: T, s: seq<T>, le: (T, T) -> bool)
    ensures le(x, y) ==> Insert(x, [y] + s, le) == [x, y] + s
    ensures !le(x, y) ==> Insert(x, [y] + s, le) == [y] + Insert(x, s, le)
  {
    assert ([y] + s)[0] == y && ([y] + s)[1..] == s;
  }

  lemma SortByOne<T>(x: T, le: (T, T) -> bool)
    ensures SortBy([x], le) == [x]
  {
    assert [x][1..] == [];
  }

  lemma InsertFront<T>(x: T, o: seq<T>, le: (T, T) -> bool)
    requires o != [] && le(x, o[0])
    ensures Insert(x, o, le) == [x] + o
  {
  }

  lemma InsertPast<T>(x: T, o: seq<T>, le: (T, T) -> bool)
    requires o != [] && !le(x, o[0])
    ensures Insert(x, o, le) == [o[0]] + Insert(x, o[1..], le)
  {
  }

  /** A head at most the sorted tail's first element stays in front. */
  lemma SortByConsFront<T>(x: T, s: seq<T>, o: seq<T>, le: (T, T) -> bool)
    requires SortBy(s, le) == o && o != [] && le(x, o[0])
    ensures SortBy([x] + s, le) == [x] + o
  {
    SortByCons(x, s, le);
    InsertFront(x, o, le);
  }

  /** A head above the sorted tail's first element but at most its second goes second. */
  lemma SortByConsSecond<T>(x: T, s: seq<T>, o: seq<T>, le: (T, T) -> bool)
    requires SortBy(s, le) == o && |o| >= 2 && !le(x, o[0]) && le(x, o[1])
    ensures SortBy([x] + s, le) == [o[0]] + ([x] + o[1..])
  {
    SortByCons(x, s, le);
    InsertPast(x, o, le);
    InsertFront(x, o[1..], le);
  }

  /** The elements of `s` that compare equal to `z`, in order. */
  function Peers<T>(s: seq<T>, le: (T, T) -> bool, z: T): seq<T> {
    if s == [] then []
    else (if le(s[0], z) && le(z, s[0]) then [s[0]] else []) + Peers(s[1..], le, z)
  }

  lemma {:induction false} InsertSorted<T(!new)>(x: T, r: seq<T>, le: (T, T) -> bool)
    requires TotalPreorder(le) && Sorted(r, le)
    ensures Sorted(Insert(x, r, le), le)
  {
    if r != [] && !le(x, r[0]) {
      var t := Insert(x, r[1..], le);
      InsertSorted(x, r[1..], le);
      assert le(r[0], x);
      forall i | 0 <= i < |r[1..]| ensures le(r[0], r[1..][i]) {
        assert r[1..][i] == r[i + 1];
      }
      InsertBounded(r[0], x, r[1..], le);
      var o := [r[0]] + t;
      forall i, j | 0 <= i < j < |o| ensures le(o[i], o[j]) {
        if i == 0 {
          assert o[j] == t[j - 1];
        } else {
          assert o[i] == t[i - 1] && o[j] == t[j - 1];
        }
      }
    }
  }

  /** A lower bound of `x` and of every element of `r` bounds the insertion too. */
  lemma {:induction false} InsertBounded<T>(b: T, x: T, r: seq<T>, le: (T, T) -> bool)
    requires le(b, x) && forall i :: 0 <= i < |r| ==> le(b, r[i])
    ensures forall i :: 0 <= i < |Insert(x, r, le)| ==> le(b, Insert(x, r, le)[i])
  {
    if r != [] && !le(x, r[0]) {
      forall i | 0 <= i < |r[1..]| ensures le(b, r[1..][i]) {
        assert r[1..][i] == r[i + 1];
      }
      InsertBounded(b, x, r[1..], le);
      var o := Insert(x, r, le);
      forall i | 0 <= i < |o| ensures le(b, o[i]) {
        if i > 0 { assert o[i] == Insert(x, r[1..], le)[i - 1]; }
      }
    }
  }

  lemma {:induction false} SortBySorted<T(!new)>(s: seq<T>, le: (T, T) -> bool)
    requires TotalPreorder(le)
    ensures Sorted(SortBy(s, le), le)
  {
    if s != [] {
      SortBySorted(s[1..], le);
      InsertSorted(s[0], SortBy(s[1..], le), le);
    }
  }

  lemma {:induction false} PeersAppend<T>(a: seq<T>, b: seq<T>, le: (T, T) -> bool, z: T)
    ensures Peers(a + b, le, z) == Peers(a, le, z) + Peers(b, le, z)
  {
    if a == [] {
      assert a + b == b;
    } else {
      assert (a + b)[1..] == a[1..] + b;
      PeersAppend(a[1..], b, le, z);
    }
  }

  lemma PeersOne<T>(y: T, le: (T, T) -> bool, z: T)
    ensures Peers([y], le, z) == if le(y, z) && le(z, y) then [y] else []
  {
    assert [y][1..] == [];
  }

  /** Inserting `x` adds it to its own peers at the front and disturbs no one else. */
  lemma {:induction false} InsertPeers<T(!new)>(x: T, r: seq<T>, le: (T, T) -> bool, z: T)
    requires TotalPreorder(le)
    ensures Peers(Insert(x, r, le), le, z)
         == (if le(x, z) && le(z, x) then [x] else []) + Peers(r, le, z)
  {
    if r == [] {
      PeersOne(x, le, z);
    } else if le(x, r[0]) {
      PeersAppend([x], r, le, z);
      PeersOne(x, le, z);
    } else {
      var y, t := r[0], r[1..];
      assert r == [y] + t;
      InsertPeers(x, t, le, z);
      if le(x, z) {
        NotAbove(le, x, y, z);
      }
      InsertPeersStep(x, y, t, le, z);
    }
  }

  /** The step of `InsertPeers` where `x` passes over the head `y`. */
  lemma InsertPeersStep<T>(x: T, y: T, t: seq<T>, le: (T, T) -> bool, z: T)
    requires !le(x, y)
    requires Peers(Insert(x, t, le), le, z) == (if le(x, z) && le(z, x) then [x] else []) + Peers(t, le, z)
    requires le(x, z) ==> !le(z, y)
    ensures Peers(Insert(x, [y] + t, le), le, z) == (if le(x, z) && le(z, x) then [x] else []) + Peers([y] + t, le, z)
  {
    InsertStep(x, y, t, le);
    PeersAppend([y], Insert(x, t, le), le, z);
    PeersAppend([y], t, le, z);
    PeersOne(y, le, z);
    SwapPastEmpty(Peers([y], le, z), if le(x, z) && le(z, x) then [x] else [], Peers(t, le, z));
  }

  lemma SwapPastEmpty<T>(a: seq<T>, b: seq<T>, c: seq<T>)
    requires a == [] || b == []
    ensures a + (b + c) == b + (a + c)
  {
    if a == [] {
      assert a + (b + c) == b + c == b + (a + c);
    } else {
      assert a + (b + c) == a + c == b + (a + c);
    }
  }

  /** If `x` is above `y`, whatever `x` is below is above `y` too. */
  lemma NotAbove<T(!new)>(le: (T, T) -> bool, x: T, y: T, z: T)
    requires TotalPreorder(le) && !le(x, y) && le(x, z)
    ensures !le(z, y)
  {
  }

  /** Stability: the sort keeps every class of equal elements in input order. */
  lemma {:induction false} SortByStable<T(!new)>(s: seq<T>, le: (T, T) -> bool, z: T)
    requires TotalPreorder(le)
    ensures Peers(SortBy(s, le), le, z) == Peers(s, le, z)
  {
    if s != [] {
      SortByStable(s[1..], le, z);
      InsertPeers(s[0], SortBy(s[1..], le), le, z);
    }
  }

  /** A sorted sequence starts with one of its least elements. */
  lemma HeadIsLeast<T(!new)>(o: seq<T>, le: (T, T) -> bool, e: T)
    requires TotalPreorder(le)
    requires Sorted(o, le) && o != [] && e in multiset(o)
    ensures le(o[0], e)
  {
    var j :| 0 <= j < |o| && o[j] == e;
    if j > 0 {
      assert le(o[0], o[j]);
    } else {
      assert le(e, e) || le(e, e);
    }
  }

  /** Two sequences that start with equal elements and agree on their peers start alike. */
  lemma SameHead<T>(o: seq<T>, p: seq<T>, le: (T, T) -> bool)
    requires o != [] && p != []
    requires le(o[0], p[0]) && le(p[0], o[0]) && le(o[0], o[0])
    requires Peers(o, le, o[0]) == Peers(p, le, o[0])
    ensures o[0] == p[0]
  {
    assert o == [o[0]] + o[1..] && p == [p[0]] + p[1..];
    PeersAppend([o[0]], o[1..], le, o[0]);
    PeersAppend([p[0]], p[1..], le, o[0]);
    assert Peers(o, le, o[0])[0] == o[0];
    assert Peers(p, le, o[0])[0] == p[0];
  }

  /** Removing the same first element keeps the peer classes equal. */
  lemma TailPeers<T>(o: seq<T>, p: seq<T>, le: (T, T) -> bool, z: T)
    requires o != [] && p != [] && o[0] == p[0]
    requires Peers(o, le, z) == Peers(p, le, z)
    ensures Peers(o[1..], le, z) == Peers(p[1..], le, z)
  {
    var x := o[0];
    assert o == [x] + o[1..] && p == [x] + p[1..];
    PeersAppend([x], o[1..], le, z);
    PeersAppend([x], p[1..], le, z);
    var a := Peers([x], le, z);
    assert (a + Peers(o[1..], le, z))[|a|..] == Peers(o[1..], le, z);
    assert (a + Peers(p[1..], le, z))[|a|..] == Peers(p[1..], le, z);
  }

  /**
   * Sorted, a permutation and stable determine the result: any two sequences
   * with these properties are equal. So the insertion sort above is the
   * result of every stable sort, Kotlin's merge sort included.
   */
  lemma {:induction false} StableSortUnique<T(!new)>(o: seq<T>, p: seq<T>, le: (T, T) -> bool)
    requires TotalPreorder(le)
    requires Sorted(o, le) && Sorted(p, le) && multiset(o) == multiset(p)
    requires forall z :: Peers(o, le, z) == Peers(p, le, z)
    ensures o == p
    decreases |o|
  {
    if o == [] {
      assert |p| == |multiset(p)| == 0;
    } else {
      HeadsAgree(o, p, le);
      forall z ensures Peers(o[1..], le, z) == Peers(p[1..], le, z) {
        TailPeers(o, p, le, z);
      }
      SortedTail(o, le);
      SortedTail(p, le);
      MultisetTail(o, p);
      StableSortUnique(o[1..], p[1..], le);
    }
  }

  /** Two sorted, stable permutations of each other start with the same element. */
  lemma HeadsAgree<T(!new)>(o: seq<T>, p: seq<T>, le: (T, T) -> bool)
    requires TotalPreorder(le)
    requires Sorted(o, le) && Sorted(p, le) && multiset(o) == multiset(p)
    requires forall z :: Peers(o, le, z) == Peers(p, le, z)
    requires o != []
    ensures p != [] && o[0] == p[0]
  {
    assert |p| == |multiset(p)| == |o|;
    assert o[0] in multiset(o) && p[0] in multiset(p);
    HeadIsLeast(o, le, p[0]);
    HeadIsLeast(p, le, o[0]);
    HeadIsLeast(o, le, o[0]);
    SameHead(o, p, le);
  }

  lemma SortedTail<T>(o: seq<T>, le: (T, T) -> bool)
    requires Sorted(o, le) && o != []
    ensures Sorted(o[1..], le)
  {
    forall i, j | 0 <= i < j < |o[1..]| ensures le(o[1..][i], o[1..][j]) {
      assert o[1..][i] == o[i + 1] && o[1..][j] == o[j + 1];
    }
  }

  lemma MultisetTail<T>(o: seq<T>, p: seq<T>)
    requires multiset(o) == multiset(p) && o != [] && p != [] && o[0] == p[0]
    ensures multiset(o[1..]) == multiset(p[1..])
  {
    assert o == [o[0]] + o[1..] && p == [p[0]] + p[1..];
    assert multiset(o[1..]) == multiset(o) - multiset{o[0]};
    assert multiset(p[1..]) == multiset(p) - multiset{o[0]};
  }

  /** The rule every caller relies on: a sorted, stable permutation is `SortBy`. */
  lemma SortByIsStableSort<T(!new)>(s: seq<T>, o: seq<T>, le: (T, T) -> bool)
    requires TotalPreorder(le)
    requires Sorted(o, le) && multiset(o) == multiset(s)
    requires forall z :: Peers(o, le, z) == Peers(s, le, z)
    ensures o == SortBy(s, le)
  {
    SortBySorted(s, le);
    forall z ensures Peers(o, le, z) == Peers(SortBy(s, le), le, z) {
      SortByStable(s, le, z);
    }
    StableSortUnique(o, SortBy(s, le), le);
  }

  // ------------------------------------------------ comparators on keys

  /** Kotlin `compareValues` on nullable keys: null sorts before any value. */
  function NullsFirst<K>(kle: (K, K) -> bool): (Option<K>, Option<K>) -> bool {
    (a: Option<K>, b: Option<K>) => a.None? || (b.Some? && kle(a.value, b.value))
  }

  lemma NullsFirstPreorder<K(!new)>(kle: (K, K) -> bool)
    requires TotalPreorder(kle)
    ensures TotalPreorder(NullsFirst(kle))
  {
  }

  lemma DatePreorder()
    ensures TotalPreorder(DateLe)
  {
    forall a, b, c ensures (DateLe(a, b) || DateLe(b, a)) && (DateLe(a, b) && DateLe(b, c) ==> DateLe(a, c)) {
      DateLeTotalOrder(a, b, c);
    }
  }

  predicate RealLe(a: real, b: real) {
    a <= b
  }

  lemma RealPreorder()
    ensures TotalPreorder(RealLe)
  {
  }

  lemma StringPreorder()
    ensures TotalPreorder(StringLe)
  {
    forall a, b ensures StringLe(a, b) || StringLe(b, a) {
      StringLeTotal(a, b);
    }
    forall a, b, c | StringLe(a, b) && StringLe(b, c) ensures StringLe(a, c) {
      StringLeTransitive(a, b, c);
    }
  }

  /** Comparing elements by a key inherits the key order's preorder. */
  lemma KeyPreorder<T(!new), K(!new)>(le: (T, T) -> bool, key: T -> K, kle: (K, K) -> bool)
    requires TotalPreorder(kle)
    requires forall a, b :: le(a, b) == kle(key(a), key(b))
    ensures TotalPreorder(le)
  {
    forall a, b, c | le(a, b) && le(b, c) ensures le(a, c) {
      assert kle(key(a), key(b)) && kle(key(b), key(c));
    }
    forall a, b ensures le(a, b) || le(b, a) {
      assert kle(key(a), key(b)) || kle(key(b), key(a));
    }
  }

  /** Ascending by character code with no repeats: the sorted listing of a set of strings. */
  predicate StrictlySorted(s: seq<string>) {
    forall i, j :: 0 <= i < j < |s| ==> StringLe(s[i], s[j]) && s[i] != s[j]
  }

  /** A list without repeats holds each element at most once. */
  lemma {:induction false} DistinctCount<T>(s: seq<T>, x: T)
    requires NoDuplicates(s)
    ensures multiset(s)[x] <= 1
  {
    if s != [] {
      assert s == [s[0]] + s[1..];
      assert NoDuplicates(s[1..]) by {
        forall i, j | 0 <= i < j < |s[1..]| ensures s[1..][i] != s[1..][j] {
          assert s[1..][i] == s[i + 1] && s[1..][j] == s[j + 1];
        }
      }
      DistinctCount(s[1..], x);
      if s[0] == x {
        assert x !in s[1..];
      }
    }
  }

  /** An element found at two positions occurs at least twice. */
  lemma RepeatCount<T>(o: seq<T>, i: nat, j: nat)
    requires i < j < |o| && o[i] == o[j]
    ensures multiset(o)[o[i]] >= 2
  {
    assert o == o[..j] + o[j..];
    assert o[i] in o[..j];
    assert o[j] in o[j..];
  }

  /** Sorting a list without repeats gives a strictly sorted list of the same elements. */
  lemma SortDistinct(inserted: seq<string>)
    requires NoDuplicates(inserted)
    ensures StrictlySorted(SortBy(inserted, StringLe))
    ensures forall h :: h in SortBy(inserted, StringLe) <==> h in inserted
  {
    var o := SortBy(inserted, StringLe);
    StringPreorder();
    SortBySorted(inserted, StringLe);
    forall i, j | 0 <= i < j < |o| ensures o[i] != o[j] {
      if o[i] == o[j] {
        RepeatCount(o, i, j);
        DistinctCount(inserted, o[i]);
      }
    }
    forall h ensures h in o <==> h in inserted {
      assert h in o <==> h in multiset(o);
    }
  }
}
