/**
 * Group-by totals, as the spending-by-category screens, the dashboard and
 * the Streamlit dashboard compute them: every element is sent to at most
 * one group, and a group's total is the sum of its elements' amounts.
 */
module Aggregation {
  import opened Common

  /** The total of the group `k`: the amounts of the elements `g` sends there, in order. */
  function GroupTotal<T, K(==)>(s: seq<T>, g: T -> Option<K>, f: T -> real, k: K): real {
    if s == [] then 0.0
    else (if g(s[0]) == Some(k) then f(s[0]) else 0.0) + GroupTotal(s[1..], g, f, k)
  }

  /** A group's total is the sum over the elements that `Filter` keeps for it. */
  lemma {:induction false} GroupTotalIsFilteredSum<T(!new), K(!new)>(s: seq<T>, g: T -> Option<K>, f: T -> real, k: K)
    ensures GroupTotal(s, g, f, k) == SumOf(Filter(s, InGroup(g, k)), f)
  {
    if s != [] {
      GroupTotalIsFilteredSum(s[1..], g, f, k);
      var head: seq<T> := if g(s[0]) == Some(k) then [s[0]] else [];
      assert Filter(s, InGroup(g, k)) == head + Filter(s[1..], InGroup(g, k));
      SumOfAppend(head, Filter(s[1..], InGroup(g, k)), f);
    }
  }

  function InGroup<T, K(==)>(g: T -> Option<K>, k: K): T -> bool {
    x => g(x) == Some(k)
  }

  /** The running total of a group grows by an element's amount exactly when that element is in it. */
  lemma {:induction false} GroupTotalSnoc<T, K>(s: seq<T>, x: T, g: T -> Option<K>, f: T -> real, k: K)
    ensures GroupTotal(s + [x], g, f, k) == GroupTotal(s, g, f, k) + (if g(x) == Some(k) then f(x) else 0.0)
  {
    if s == [] {
      assert s + [x] == [x];
    } else {
      assert (s + [x])[1..] == s[1..] + [x];
      GroupTotalSnoc(s[1..], x, g, f, k);
    }
  }

  /** The group totals of `ks`, added up. */
  function GroupSums<T, K(==)>(ks: seq<K>, s: seq<T>, g: T -> Option<K>, f: T -> real): real {
    if ks == [] then 0.0 else GroupTotal(s, g, f, ks[0]) + GroupSums(ks[1..], s, g, f)
  }

  /** What one element adds to the group sums of `ks`. */
  function Hit<K(==)>(ks: seq<K>, o: Option<K>, v: real): real {
    if ks == [] then 0.0 else (if o == Some(ks[0]) then v else 0.0) + Hit(ks[1..], o, v)
  }

  /** Over distinct groups an element is counted once if its group is listed, else not at all. */
  lemma {:induction false} HitDistinct<K>(ks: seq<K>, o: Option<K>, v: real)
    requires NoDuplicates(ks)
    ensures Hit(ks, o, v) == if o.Some? && o.value in ks then v else 0.0
  {
    if ks != [] {
      HitDistinct(ks[1..], o, v);
      if o == Some(ks[0]) {
        assert o.value !in ks[1..] by {
          forall j | 0 <= j < |ks[1..]| ensures ks[1..][j] != ks[0] {
            assert ks[1..][j] == ks[j + 1];
          }
        }
      }
    }
  }

  lemma {:induction false} GroupSumsCons<T(!new), K(!new)>(ks: seq<K>, x: T, s: seq<T>, g: T -> Option<K>, f: T -> real)
    ensures GroupSums(ks, [x] + s, g, f) == Hit(ks, g(x), f(x)) + GroupSums(ks, s, g, f)
  {
    if ks != [] {
      GroupSumsCons(ks[1..], x, s, g, f);
      assert ([x] + s)[1..] == s;
    }
  }

  /**
   * Distinct groups that cover every grouped element partition the sum:
   * the group totals add up to the total of the elements that have a group.
   */
  lemma {:induction false} GroupsPartition<T(!new), K(!new)>(ks: seq<K>, s: seq<T>, g: T -> Option<K>, f: T -> real)
    requires NoDuplicates(ks)
    requires forall x :: x in s && g(x).Some? ==> g(x).value in ks
    ensures GroupSums(ks, s, g, f) == SumOf(Filter(s, Grouped(g)), f)
  {
    if s == [] {
      GroupSumsEmpty(ks, g, f);
    } else {
      var x := s[0];
      assert s == [x] + s[1..];
      GroupsPartition(ks, s[1..], g, f);
      GroupSumsCons(ks, x, s[1..], g, f);
      HitDistinct(ks, g(x), f(x));
      var head: seq<T> := if g(x).Some? then [x] else [];
      assert Filter(s, Grouped(g)) == head + Filter(s[1..], Grouped(g));
      SumOfAppend(head, Filter(s[1..], Grouped(g)), f);
    }
  }

  /** The elements that have a group. */
  function Grouped<T, K>(g: T -> Option<K>): T -> bool {
    x => g(x).Some?
  }

  lemma {:induction false} GroupSumsEmpty<T(!new), K(!new)>(ks: seq<K>, g: T -> Option<K>, f: T -> real)
    ensures GroupSums(ks, [], g, f) == 0.0
  {
    if ks != [] {
      GroupSumsEmpty(ks[1..], g, f);
    }
  }

  /** The values of `m` at the keys `ks`, added up. */
  function MapSum<K>(ks: seq<K>, m: map<K, real>): real
    requires forall k :: k in ks ==> k in m
  {
    if ks == [] then 0.0 else m[ks[0]] + MapSum(ks[1..], m)
  }

  /** A map that holds the group totals sums, over its keys, to the group sums. */
  lemma {:induction false} MapSumOfTotals<T(!new), K(!new)>(ks: seq<K>, m: map<K, real>, s: seq<T>, g: T -> Option<K>, f: T -> real)
    requires forall k :: k in ks ==> k in m && m[k] == GroupTotal(s, g, f, k)
    ensures MapSum(ks, m) == GroupSums(ks, s, g, f)
  {
    if ks != [] {
      MapSumOfTotals(ks[1..], m, s, g, f);
    }
  }

  /** The totals after adding `x`'s amount to its group, as the loops do it. */
  function AddTo<T, K>(m: map<K, real>, x: T, g: T -> Option<K>, f: T -> real): map<K, real>
    requires g(x).Some? ==> g(x).value in m
  {
    if g(x).Some? then m[g(x).value := m[g(x).value] + f(x)] else m
  }

  /** `m` holds, at its keys, the group totals of `s`. */
  ghost predicate TotalsOf<T(!new), K(!new)>(m: map<K, real>, s: seq<T>, g: T -> Option<K>, f: T -> real) {
    forall k :: k in m ==> m[k] == GroupTotal(s, g, f, k)
  }

  /** Adding one element keeps a map of running group totals up to date. */
  lemma AddToTotals<T(!new), K(!new)>(m: map<K, real>, s: seq<T>, x: T, g: T -> Option<K>, f: T -> real)
    requires TotalsOf(m, s, g, f)
    requires g(x).Some? ==> g(x).value in m
    ensures AddTo(m, x, g, f).Keys == m.Keys
    ensures TotalsOf(AddTo(m, x, g, f), s + [x], g, f)
  {
    forall k | k in m ensures GroupTotal(s + [x], g, f, k) == GroupTotal(s, g, f, k) + (if g(x) == Some(k) then f(x) else 0.0) {
      GroupTotalSnoc(s, x, g, f, k);
    }
  }

  /** One step of the accumulation loop, from the prefix of length `n` to the next. */
  lemma TotalsStep<T(!new), K(!new)>(before: map<K, real>, after: map<K, real>, s: seq<T>, n: nat, g: T -> Option<K>, f: T -> real)
    requires n < |s| && TotalsOf(before, s[..n], g, f)
    requires g(s[n]).Some? ==> g(s[n]).value in before
    requires after == AddTo(before, s[n], g, f)
    ensures after.Keys == before.Keys && TotalsOf(after, s[..n + 1], g, f)
  {
    AddToTotals(before, s[..n], s[n], g, f);
    assert s[..n + 1] == s[..n] + [s[n]];
  }

  /** All-zero totals are the totals of the empty prefix. */
  lemma TotalsStart<T(!new), K(!new)>(m: map<K, real>, s: seq<T>, g: T -> Option<K>, f: T -> real)
    requires forall k :: k in m ==> m[k] == 0.0
    ensures TotalsOf(m, s[..0], g, f)
  {
    assert s[..0] == [];
  }

  /** The totals map every loop starts from: each key present with 0. */
  method ZeroTotals<K>(ks: seq<K>) returns (m: map<K, real>)
    ensures forall k :: k in m <==> k in ks
    ensures forall k :: k in m ==> m[k] == 0.0
  {
    m := map[];
    var i := 0;
    while i < |ks|
      invariant 0 <= i <= |ks|
      invariant forall k :: k in m <==> k in ks[..i]
      invariant forall k :: k in m ==> m[k] == 0.0
    {
      assert ks[..i + 1] == ks[..i] + [ks[i]];
      m := m[ks[i] := 0.0];
      i := i + 1;
    }
    assert ks[..i] == ks;
  }

  /**
   * The accumulation loop of the spending screens: every key of `ks` starts
   * at 0 and each element's amount is added to its group's entry, in order.
   */
  method Totals<T(!new), K(!new)>(ks: seq<K>, s: seq<T>, g: T -> Option<K>, f: T -> real) returns (m: map<K, real>)
    requires forall x :: x in s && g(x).Some? ==> g(x).value in ks
    ensures forall k :: k in m <==> k in ks
    ensures forall k :: k in m ==> m[k] == GroupTotal(s, g, f, k)
  {
    m := ZeroTotals(ks);
    ghost var keys := m.Keys;
    TotalsStart(m, s, g, f);
    var n := 0;
    while n < |s|
      invariant 0 <= n <= |s|
      invariant m.Keys == keys
      invariant TotalsOf(m, s[..n], g, f)
    {
      var x := s[n];
      var target := g(x);
      ghost var before := m;
      if target.Some? {
        var current := m[target.value];
        m := m[target.value := current + f(x)];
      }
      TotalsStep(before, m, s, n, g, f);
      n := n + 1;
    }
    assert s[..n] == s;
  }
}
